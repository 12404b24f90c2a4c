/** The XenAPI client as the instantiate-template step sees it.
    Every remote operation is a scripted oracle: the client answers each kind of
    call with the result fixed in its `script`, and records every call it receives
    in `calls`, so that what a step asked of the control plane can be stated. */
module XenApi {

  /** A remote call that returns a value or an error. */
  datatype Result<T> = Ok(value: T) | Err(error: string)

  /** A remote call that returns only an error, `nil` on success. */
  datatype Status = Done | Failed(error: string)

  /** An opaque reference to a VM or template on the control plane. */
  datatype VmRef = VmRef(opaqueRef: string)

  /** One remote operation, with the arguments it was invoked with. */
  datatype Call =
    | GetVMByUuid(uuid: string)
    | GetVMByNameLabel(nameLabel: string)
    | Clone(template: VmRef, newName: string)
    | GetUuid(vm: VmRef)
    | SetIsATemplate(vm: VmRef, isATemplate: bool)
    | SetDescription(vm: VmRef, description: string)

  /** The answer the control plane gives to each kind of call. */
  datatype Script = Script(
    byUuid: Result<VmRef>,
    byNameLabel: Result<seq<VmRef>>,
    clone: Result<VmRef>,
    uuid: Result<string>,
    setIsATemplate: Status,
    setDescription: Status)

  /** The client handle published in the state bag under "client".  The VM
      operations (`Clone`, `GetUuid`, `SetIsATemplate`, `SetDescription`) are
      methods of the VM object in the library; they forward to this client. */
  class Client {
    const script: Script
    var calls: seq<Call>

    constructor (script: Script)
      ensures this.script == script && calls == []
    {
      this.script := script;
      calls := [];
    }

    method GetVMByUuid(uuid: string) returns (r: Result<VmRef>)
      modifies this
      ensures calls == old(calls) + [Call.GetVMByUuid(uuid)]
      ensures r == script.byUuid
    {
      calls := calls + [Call.GetVMByUuid(uuid)];
      r := script.byUuid;
    }

    method GetVMByNameLabel(nameLabel: string) returns (r: Result<seq<VmRef>>)
      modifies this
      ensures calls == old(calls) + [Call.GetVMByNameLabel(nameLabel)]
      ensures r == script.byNameLabel
    {
      calls := calls + [Call.GetVMByNameLabel(nameLabel)];
      r := script.byNameLabel;
    }

    method Clone(template: VmRef, newName: string) returns (r: Result<VmRef>)
      modifies this
      ensures calls == old(calls) + [Call.Clone(template, newName)]
      ensures r == script.clone
    {
      calls := calls + [Call.Clone(template, newName)];
      r := script.clone;
    }

    method GetUuid(vm: VmRef) returns (r: Result<string>)
      modifies this
      ensures calls == old(calls) + [Call.GetUuid(vm)]
      ensures r == script.uuid
    {
      calls := calls + [Call.GetUuid(vm)];
      r := script.uuid;
    }

    method SetIsATemplate(vm: VmRef, isATemplate: bool) returns (r: Status)
      modifies this
      ensures calls == old(calls) + [Call.SetIsATemplate(vm, isATemplate)]
      ensures r == script.setIsATemplate
    {
      calls := calls + [Call.SetIsATemplate(vm, isATemplate)];
      r := script.setIsATemplate;
    }

    method SetDescription(vm: VmRef, description: string) returns (r: Status)
      modifies this
      ensures calls == old(calls) + [Call.SetDescription(vm, description)]
      ensures r == script.setDescription
    {
      calls := calls + [Call.SetDescription(vm, description)];
      r := script.setDescription;
    }
  }
}
