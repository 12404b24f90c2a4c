# Instantiate-template step of the XenServer xva builder

This project models `stepInstantiateTemplate`, the Packer build step of the XenServer
`xva` builder. When the configuration names a `SourceTemplate`, the step clones a new VM
from an existing template on the XenServer control plane. It reads `config`, `client`
and `ui` from the multistep state bag. It resolves the template by UUID when the
specifier starts with `uuid://`, and by name-label otherwise. If no template is
configured, it does nothing. If resolution fails, it reports why, announces the
`source_path` fallback and continues. Once a template is found, it clones it, publishes
the clone's UUID under `instance_uuid`, clears the template flag and sets the
description. It halts on the first of those four calls that fails.

The project has three modules:

- `XenApi` (`xen_api.dfy`) is the control-plane client, written as a scripted oracle.
  A `Client` answers each kind of remote call with the result fixed in its `Script`,
  and it records every call it receives.
- `InstantiateTemplate` (`step_instantiate_template.dfy`) holds the configuration,
  the diagnostics as tagged values, the `Ui` and `StateBag` classes, and the pure
  specification `RunSpec`.
  - `RunSpec` gives the outcome of one run and an ordered log of its effects: remote
    calls, UI messages, state-bag writes and assignments to the step's `instance`.
  - `Replay` folds such a log over a `World`. A `World` is the bag's entries, the
    client's calls, the UI's messages and the step's `instance`.
  - The class `StepInstantiateTemplate` with `Run` and `Cleanup` is the step itself.
    `Run` is proved to leave the world exactly as `Replay` of the `RunSpec` log
    describes.
- `InstantiateTemplateProperties` (`step_instantiate_template_properties.dfy`)
  proves what the step promises, over all configurations and all control-plane
  answers.

## Model

| member | source | states |
|---|---|---|
| XenApi.Client.GetVMByUuid | builder/xenserver/xva/step_instantiate_template.go:34 | records a UUID lookup with its argument and returns the scripted VM or error |
| XenApi.Client.GetVMByNameLabel | builder/xenserver/xva/step_instantiate_template.go:41 | records a name-label lookup and returns the scripted list of matches or error |
| XenApi.Client.Clone | builder/xenserver/xva/step_instantiate_template.go:62 | records a clone of the given template under the given name and returns the scripted VM or error |
| XenApi.Client.GetUuid | builder/xenserver/xva/step_instantiate_template.go:68 | records a UUID query on the VM and returns the scripted UUID or error |
| XenApi.Client.SetIsATemplate | builder/xenserver/xva/step_instantiate_template.go:75 | records the template-flag change with its value and returns the scripted status |
| XenApi.Client.SetDescription | builder/xenserver/xva/step_instantiate_template.go:81 | records the description change with its text and returns the scripted status |
| InstantiateTemplate.HasUuidPrefix | builder/xenserver/xva/step_instantiate_template.go:31 | the prefix test holds exactly when the string has at least 7 characters and they agree, one by one, with `uuid://`; then the string is the prefix followed by its remainder |
| InstantiateTemplate.Classify | builder/xenserver/xva/step_instantiate_template.go:19-41 | an empty specifier means no template; a UUID lookup happens exactly when the string has the 7-character `uuid://` prefix, and its argument is the rest after the prefix; any other non-empty string is looked up by name-label unchanged |
| InstantiateTemplate.RunSpec | builder/xenserver/xva/step_instantiate_template.go:16-90 | a run has no effect exactly when no template is configured; otherwise it has at least four effects and opens with the step banner; a halting run ends with a UI message |
| InstantiateTemplate.FallBack | builder/xenserver/xva/step_instantiate_template.go:36-38 | giving up on the template continues; it adds exactly two effects after the lookup, both error messages, the last being the `source_path` notice (also :43-45, :50-52, :54-56) |
| InstantiateTemplate.CloneSpec | builder/xenserver/xva/step_instantiate_template.go:62-89 | the continuation opens with the clone of the template under the VM name and ends with a UI message; it continues if and only if Clone, GetUuid, SetIsATemplate and SetDescription all succeed |
| InstantiateTemplate.Ui.Say | builder/xenserver/xva/step_instantiate_template.go:26 | appends exactly one informational message to what the UI has shown (also :87) |
| InstantiateTemplate.Ui.Error | builder/xenserver/xva/step_instantiate_template.go:36-37 | appends exactly one error message to what the UI has shown (also :43-44, :50-56, :64, :70, :77, :83) |
| InstantiateTemplate.StateBag.Put | builder/xenserver/xva/step_instantiate_template.go:73 | sets one key to the value and leaves every other entry as it was |
| InstantiateTemplate.ReplayKeepsEntries | builder/xenserver/xva/step_instantiate_template.go:73 | replaying any log never removes a state-bag key; the keys afterwards are the old keys plus the published ones; unpublished keys keep their values |
| InstantiateTemplate.ReplayInstance | builder/xenserver/xva/step_instantiate_template.go:62 | the step's `instance` changes only through an assignment in the log |
| InstantiateTemplate.StepInstantiateTemplate.Run | builder/xenserver/xva/step_instantiate_template.go:16-90 | returns the outcome of `RunSpec`; with no template it changes nothing; otherwise the bag, the client's calls, the UI's messages and `instance` afterwards are the old ones with the `RunSpec` log replayed in order; the step's effect history grows by exactly that log |
| InstantiateTemplate.StepInstantiateTemplate.Finalise | builder/xenserver/xva/step_instantiate_template.go:62-89 | clone, UUID query and publish, template-flag change and description, halting at the first failure; the world afterwards is the `CloneSpec` log replayed |
| InstantiateTemplate.StepInstantiateTemplate.Cleanup | builder/xenserver/xva/step_instantiate_template.go:92 | changes neither the step nor the bag |
| InstantiateTemplateProperties.ResolvedRun | builder/xenserver/xva/step_instantiate_template.go:26-62 | a run that resolves a template is the banner, the lookup call of the configured kind, and then the clone-and-finalise continuation on that template |
| InstantiateTemplateProperties.UnresolvedRun | builder/xenserver/xva/step_instantiate_template.go:31-57 | a run with a specifier that resolves nothing is exactly the banner, the lookup, one diagnostic and the `source_path` notice, and it continues |
| InstantiateTemplateProperties.UuidPrefixCharacterised | builder/xenserver/xva/step_instantiate_template.go:31 | the prefix test holds exactly for strings of the form `uuid://` followed by anything |
| InstantiateTemplateProperties.ClassifyUuid | builder/xenserver/xva/step_instantiate_template.go:31-32 | `uuid://` followed by any id becomes a UUID lookup of exactly that id |
| InstantiateTemplateProperties.BareUuidPrefix | builder/xenserver/xva/step_instantiate_template.go:31-32 | the bare prefix asks for the empty UUID |
| InstantiateTemplateProperties.ShortSpecifierIsNameLabel | builder/xenserver/xva/step_instantiate_template.go:31-41 | every non-empty specifier shorter than the 7-character prefix is looked up by name-label, unchanged |
| InstantiateTemplateProperties.PrefixIsCaseSensitive | builder/xenserver/xva/step_instantiate_template.go:31-41 | every specifier of at least 7 characters that starts with a capital `U` (such as `UUID://...`) is looked up by name-label, unchanged |
| InstantiateTemplateProperties.EmptySourceTemplateIsNoOp | builder/xenserver/xva/step_instantiate_template.go:19-21 | an empty `SourceTemplate` continues with no effect at all, whatever client, if any, is present |
| InstantiateTemplateProperties.UuidLookupFailureFallsBack | builder/xenserver/xva/step_instantiate_template.go:31-39 | a failed UUID lookup gives exactly: banner, lookup of that UUID, a diagnostic with the UUID and cause, the fallback notice; it continues, never clones and never writes the bag |
| InstantiateTemplateProperties.NameLabelFailureFallsBack | builder/xenserver/xva/step_instantiate_template.go:41-57 | a lookup error, zero matches and several matches each give their own diagnostic followed by the fallback notice; the run continues without cloning or writing the bag |
| InstantiateTemplateProperties.UniqueNameLabelActsAsUuid | builder/xenserver/xva/step_instantiate_template.go:34-62 | a name-label with exactly one match proceeds exactly as a UUID lookup that found the same template: same outcome, same effects after the lookup, the first being the clone of that template |
| InstantiateTemplateProperties.ClonesTheResolvedTemplate | builder/xenserver/xva/step_instantiate_template.go:31-62 | Clone is called, with a given template and name, if and only if the lookup resolved that template and the name is the configured VM name; it is called at most once |
| InstantiateTemplateProperties.CloneFirst | builder/xenserver/xva/step_instantiate_template.go:62 | in the clone-and-finalise part, the clone of the template under the VM name is the first effect, and no later effect is a clone |
| InstantiateTemplateProperties.EarlyFinaliseFailureHalts | builder/xenserver/xva/step_instantiate_template.go:62-72 | a failed Clone or GetUuid halts with its own diagnostic as the last effect, writes nothing to the bag, and neither changes the template flag nor sets the description |
| InstantiateTemplateProperties.PublishedBeforeConversion | builder/xenserver/xva/step_instantiate_template.go:68-75 | once GetUuid returns an id, the id is published under `instance_uuid` before the template flag is cleared on the clone |
| InstantiateTemplateProperties.LateFinaliseFailureHalts | builder/xenserver/xva/step_instantiate_template.go:73-85 | a failed SetIsATemplate or SetDescription halts with the UUID already published and its own diagnostic (conversion failure or description failure, with the cause) as the last effect; after a failed SetIsATemplate, SetDescription is never called |
| InstantiateTemplateProperties.FullSuccess | builder/xenserver/xva/step_instantiate_template.go:62-89 | when every call succeeds: continue, with exactly the nine effects banner, lookup, clone of the resolved template under the VM name, assignment of the clone, UUID query, publish of the UUID, clearing the clone's template flag, setting its description to the configured one, and the confirmation naming the UUID; the UUID is published once and every assignment of `instance` is the clone |
| InstantiateTemplateProperties.ClonePrefix | builder/xenserver/xva/step_instantiate_template.go:62-73 | once Clone and GetUuid succeed, the continuation starts with clone, assignment, UUID query and publish; everything after that is calls and messages |
| InstantiateTemplateProperties.ClonePublishes | builder/xenserver/xva/step_instantiate_template.go:62-89 | once Clone and GetUuid succeed, whatever follows, replaying the continuation leaves the bag with the UUID under `instance_uuid` and otherwise unchanged, and `instance` holding the clone |
| InstantiateTemplateProperties.PublishedUuidStays | builder/xenserver/xva/step_instantiate_template.go:62-89 | the same for a whole run that resolves a template |
| InstantiateTemplateProperties.CloneOutcome | builder/xenserver/xva/step_instantiate_template.go:62-89 | the continuation halts if and only if some finalising call fails; it writes the bag if and only if Clone and GetUuid both succeed; the only key it writes is `instance_uuid` |
| InstantiateTemplateProperties.OutcomeClasses | builder/xenserver/xva/step_instantiate_template.go:16-90 | with a template configured: the step halts if and only if a template was resolved and a finalising call failed; it writes nothing if and only if resolution failed or Clone or GetUuid failed; it writes no key other than `instance_uuid`; without resolution it continues and never clones |
| InstantiateTemplateProperties.ReplayQuiet | builder/xenserver/xva/step_instantiate_template.go:26-57 | a log of remote calls and UI messages alone changes neither the bag nor `instance` |
| InstantiateTemplateProperties.WritesNothingKeepsBag | builder/xenserver/xva/step_instantiate_template.go:73 | a log with no state-bag write leaves the bag exactly as it was |
| InstantiateTemplateProperties.FailedRunKeepsBag | builder/xenserver/xva/step_instantiate_template.go:31-72 | a run whose template is not resolved, or whose Clone or GetUuid fails, leaves the state bag exactly as it was; without a resolved template it also leaves `instance` as it was |
| InstantiateTemplateProperties.RunWithoutTemplate | builder/xenserver/xva/step_instantiate_template.go:19-21 | a fresh step run on a bag that holds only the configuration, with no template, continues |
| InstantiateTemplateProperties.RunAgainstHealthyPlatform | builder/xenserver/xva/step_instantiate_template.go:16-90 | a fresh step run against a control plane that answers every call continues, and the bag then holds the new VM's UUID under `instance_uuid` |

## Left out

- The XenAPI client library and the network are not modelled. Each remote call is a scripted answer that the `Client` records. The VM methods (`Clone`, `GetUuid`, `SetIsATemplate`, `SetDescription`) belong to the VM object in the library and forward to the client; here they are methods of `Client`. A script answers each kind of call the same way every time, which is enough because the step makes each call at most once.
- The multistep runner is not modelled, nor its reverse-order call of `Cleanup` after a halt. A step's outcome is returned and nothing more.
- InstantiateTemplate.StepInstantiateTemplate.Cleanup: destroying the cloned instance is not modelled, because the source's `Cleanup` is empty. A VM cloned by a run that then halts stays on the control plane.
- Message text is not modelled. Each `ui.Say`/`ui.Error` is a tagged `Info`/`Diagnostic` value that carries the same data (UUID, name-label, error cause, instance id) as the formatted string.
- The type assertions `state.Get(key).(T)` are not modelled as panics. Instead, `Run` has preconditions: `config` is always present, and `client` and `ui` are present once a template is configured, because the source reads them only after the empty check.
- The `vdi` field of the step is not modelled. This step never reads or writes it.
- InstantiateTemplate.StepInstantiateTemplate.Run: when `Clone` fails, the step's `instance` is modelled as nil (`None`). The source assigns whatever the library returns alongside the error, which is nil there.
- Errors are strings. Their structure inside the client library is not modelled.
