/** The Packer build step that turns the configured `SourceTemplate` into a new
    XenServer VM by cloning an existing template.

    The step is modelled twice, on purpose: `RunSpec` is a pure function that says
    what one run does, as an outcome and an ordered log of effects (remote calls,
    UI messages, state-bag writes, assignments of the step's `instance` field);
    `StepInstantiateTemplate.Run` is the imperative step, proved to do exactly
    what `RunSpec` says to the state bag, the client, the UI and itself: the
    `World` those four make up afterwards is the one before, with the log of
    `RunSpec` replayed on it. */
module InstantiateTemplate {
  import opened XenApi

  datatype Option<T> = None | Some(value: T)

  /** What a step tells the multistep runner. */
  datatype StepAction = ActionContinue | ActionHalt

  /** The part of the xva builder's configuration this step reads. */
  datatype Config = Config(sourceTemplate: string, vmName: string, vmDescription: string)

  // ---------------------------------------------------------------------------
  // Diagnostics, as tagged values rather than formatted text.

  datatype Info =
    | StepBanner                          // the banner that opens the step
    | Instantiated(instanceId: string)    // the final confirmation, naming the new VM's UUID

  datatype Diagnostic =
    | UuidLookupFailed(uuid: string, cause: string)
    | NameLabelLookupFailed(cause: string)
    | NoTemplateNamed(nameLabel: string)
    | NameLabelNotUnique(nameLabel: string)
    | DefaultingToSourcePath              // the notice that the `source_path` route will be used
    | CloneFailed(cause: string)
    | GetUuidFailed(cause: string)
    | ConvertToVmFailed(cause: string)
    | SetDescriptionFailed(cause: string)

  datatype Message = Say(info: Info) | Error(diagnostic: Diagnostic)

  /** The user interface published in the state bag under "ui": it keeps every
      message it was given, in order. */
  class Ui {
    var messages: seq<Message>

    constructor ()
      ensures messages == []
    {
      messages := [];
    }

    method Say(info: Info)
      modifies this
      ensures messages == old(messages) + [Message.Say(info)]
    {
      messages := messages + [Message.Say(info)];
    }

    method Error(diagnostic: Diagnostic)
      modifies this
      ensures messages == old(messages) + [Message.Error(diagnostic)]
    {
      messages := messages + [Message.Error(diagnostic)];
    }
  }

  // ---------------------------------------------------------------------------
  // The state bag shared by the steps of one build.

  /** The values this step finds in, or writes to, the state bag. */
  datatype Value =
    | ConfigValue(config: Config)
    | ClientValue(client: Client)
    | UiValue(ui: Ui)
    | StringValue(text: string)

  const InstanceUuidKey: string := "instance_uuid"

  class StateBag {
    var entries: map<string, Value>

    constructor (entries: map<string, Value>)
      ensures this.entries == entries
    {
      this.entries := entries;
    }

    method Put(key: string, value: Value)
      modifies this
      ensures entries == old(entries)[key := value]
    {
      entries := entries[key := value];
    }
  }

  /** The bag holds the build configuration under "config". */
  predicate HasConfig(entries: map<string, Value>) {
    "config" in entries && entries["config"].ConfigValue?
  }

  /** The bag holds the XenAPI client under "client". */
  predicate HasClient(entries: map<string, Value>) {
    "client" in entries && entries["client"].ClientValue?
  }

  /** The bag holds the user interface under "ui". */
  predicate HasUi(entries: map<string, Value>) {
    "ui" in entries && entries["ui"].UiValue?
  }

  /** The script of the client in the bag, if there is one. */
  function ScriptIn(entries: map<string, Value>): (s: Option<Script>)
    ensures s.Some? <==> HasClient(entries)
  {
    if HasClient(entries) then Some(entries["client"].client.script) else None
  }

  /** The objects `Run` may change besides the step and the bag. */
  function Collaborators(entries: map<string, Value>): set<object> {
    (if HasClient(entries) then {entries["client"].client} else {})
    + (if HasUi(entries) then {entries["ui"].ui} else {})
  }

  // ---------------------------------------------------------------------------
  // The source specifier.

  /** The three forms a `SourceTemplate` string can take. */
  datatype Specifier = NoTemplate | ByUuid(uuid: string) | ByNameLabel(nameLabel: string)

  const UuidPrefix: string := "uuid://"

  /** The prefix test of the step: exact and case-sensitive. */
  predicate HasUuidPrefix(s: string): (b: bool)
    ensures b <==> |s| >= |UuidPrefix| && forall i :: 0 <= i < |UuidPrefix| ==> s[i] == UuidPrefix[i]
    ensures b ==> s == UuidPrefix + s[|UuidPrefix|..]
  {
    |s| >= 7 && s[..7] == UuidPrefix
  }

  /** Which lookup a specifier asks for, and with what argument. */
  function Classify(s: string): (k: Specifier)
    ensures k == NoTemplate <==> s == ""
    ensures k.ByUuid? <==> HasUuidPrefix(s)
    ensures k.ByUuid? ==> s == UuidPrefix + k.uuid
    ensures k.ByNameLabel? ==> k.nameLabel == s && s != ""
  {
    if s == "" then NoTemplate
    else if HasUuidPrefix(s) then ByUuid(s[7..])
    else ByNameLabel(s)
  }

  // ---------------------------------------------------------------------------
  // What one run does, as a value.

  /** One observable effect of the step, in the order it happens. */
  datatype Event =
    | Called(call: Call)                         // a request to the control plane
    | Emitted(message: Message)                  // a message to the UI
    | Published(key: string, value: string)      // a write to the state bag
    | AssignedInstance(vm: Option<VmRef>)        // an assignment to the step's `instance` (None is nil)

  datatype Trace = Trace(action: StepAction, events: seq<Event>)

  /** `t` preceded by the effects in `before`. */
  function After(before: seq<Event>, t: Trace): Trace {
    Trace(t.action, before + t.events)
  }

  /** A run of the step, for a configuration and the client in the state bag
      (the client is only looked at when a template is configured). */
  function RunSpec(cfg: Config, script: Option<Script>): (r: Trace)
    requires cfg.sourceTemplate != "" ==> script.Some?
    ensures r.events == [] <==> cfg.sourceTemplate == ""
    ensures r.events != [] ==> |r.events| >= 4 && r.events[0] == Emitted(Say(StepBanner))
    ensures r.action == ActionHalt ==> r.events != [] && r.events[|r.events| - 1].Emitted?
  {
    match Classify(cfg.sourceTemplate)
    case NoTemplate => Trace(ActionContinue, [])
    case ByUuid(uuid) =>
      var s := script.value;
      var looked := [Emitted(Say(StepBanner))] + [Called(Call.GetVMByUuid(uuid))];
      if s.byUuid.Err? then
        FallBack(looked, UuidLookupFailed(uuid, s.byUuid.error))
      else
        After(looked, CloneSpec(cfg, s.byUuid.value, s))
    case ByNameLabel(nameLabel) =>
      var s := script.value;
      var looked := [Emitted(Say(StepBanner))] + [Called(Call.GetVMByNameLabel(nameLabel))];
      if s.byNameLabel.Err? then
        FallBack(looked, NameLabelLookupFailed(s.byNameLabel.error))
      else if |s.byNameLabel.value| == 0 then
        FallBack(looked, NoTemplateNamed(nameLabel))
      else if |s.byNameLabel.value| > 1 then
        FallBack(looked, NameLabelNotUnique(nameLabel))
      else
        After(looked, CloneSpec(cfg, s.byNameLabel.value[0], s))
  }

  /** Giving up on the template: report why, announce the `source_path` route,
      and let the build go on. */
  function FallBack(looked: seq<Event>, why: Diagnostic): (r: Trace)
    ensures r.action == ActionContinue
    ensures |r.events| == |looked| + 2 && r.events[..|looked|] == looked
    ensures forall e :: e in r.events[|looked|..] ==> e.Emitted? && e.message.Error?
    ensures r.events[|r.events| - 1] == Emitted(Error(DefaultingToSourcePath))
  {
    Trace(ActionContinue, looked + [Emitted(Error(why))] + [Emitted(Error(DefaultingToSourcePath))])
  }

  /** The continuation shared by both lookups once a template is known: clone it,
      then publish the new VM's UUID, clear its template flag and describe it. */
  function CloneSpec(cfg: Config, template: VmRef, s: Script): (r: Trace)
    ensures |r.events| >= 3 && r.events[0] == Called(Call.Clone(template, cfg.vmName))
    ensures r.action == ActionContinue <==>
              s.clone.Ok? && s.uuid.Ok? && s.setIsATemplate.Done? && s.setDescription.Done?
    ensures r.events[|r.events| - 1].Emitted?
  {
    var cloning := [Called(Call.Clone(template, cfg.vmName))];
    if s.clone.Err? then
      Trace(ActionHalt, cloning + [AssignedInstance(None)] + [Emitted(Error(CloneFailed(s.clone.error)))])
    else
      var vm := s.clone.value;
      var cloned := cloning + [AssignedInstance(Some(vm))] + [Called(Call.GetUuid(vm))];
      if s.uuid.Err? then
        Trace(ActionHalt, cloned + [Emitted(Error(GetUuidFailed(s.uuid.error)))])
      else
        var id := s.uuid.value;
        var converting := cloned + [Published(InstanceUuidKey, id)] + [Called(Call.SetIsATemplate(vm, false))];
        if s.setIsATemplate.Failed? then
          Trace(ActionHalt, converting + [Emitted(Error(ConvertToVmFailed(s.setIsATemplate.error)))])
        else
          var describing := converting + [Called(Call.SetDescription(vm, cfg.vmDescription))];
          if s.setDescription.Failed? then
            Trace(ActionHalt, describing + [Emitted(Error(SetDescriptionFailed(s.setDescription.error)))])
          else
            Trace(ActionContinue, describing + [Emitted(Say(Instantiated(id)))])
  }

  // ---------------------------------------------------------------------------
  // What an effect log does to the step and its collaborators.

  /** What `Run` can change: the state bag's entries, the calls the client has
      received, the messages the UI has shown, and the step's `instance`. */
  datatype World = World(entries: map<string, Value>, calls: seq<Call>, messages: seq<Message>,
                         instance: Option<VmRef>)

  /** The effect of one event. */
  function Apply(w: World, e: Event): World {
    match e
    case Called(call) => w.(calls := w.calls + [call])
    case Emitted(message) => w.(messages := w.messages + [message])
    case Published(key, value) => w.(entries := w.entries[key := StringValue(value)])
    case AssignedInstance(vm) => w.(instance := vm)
  }

  /** The keys a log writes to the state bag. */
  function PublishedKeys(events: seq<Event>): set<string> {
    set e | e in events && e.Published? :: e.key
  }

  /** The world after a log: the client's and the UI's histories only grow. */
  function Replay(w: World, events: seq<Event>): (r: World)
    ensures w.calls <= r.calls && w.messages <= r.messages
  {
    if events == [] then w
    else Apply(Replay(w, events[..|events| - 1]), events[|events| - 1])
  }

  /** No key of the state bag is ever removed, and a key the log does not write
      keeps its value. */
  lemma {:induction false} ReplayKeepsEntries(w: World, events: seq<Event>)
    ensures Replay(w, events).entries.Keys == w.entries.Keys + PublishedKeys(events)
    ensures forall k :: k in w.entries && k !in PublishedKeys(events) ==>
              Replay(w, events).entries[k] == w.entries[k]
  {
    if events != [] {
      var init, last := events[..|events| - 1], events[|events| - 1];
      ReplayKeepsEntries(w, init);
      assert events == init + [last];
      PublishedKeysSnoc(init, last);
    }
  }

  /** One more event adds at most its own key to the published keys. */
  lemma PublishedKeysSnoc(init: seq<Event>, last: Event)
    ensures PublishedKeys(init + [last]) == PublishedKeys(init) + (if last.Published? then {last.key} else {})
  {
    var events := init + [last];
    forall k | k in PublishedKeys(events)
      ensures k in PublishedKeys(init) || (last.Published? && k == last.key)
    {
      var e :| e in events && e.Published? && e.key == k;
      if e != last {
        assert e in init;
      }
    }
    assert forall e :: e in init ==> e in events;
  }

  /** `instance` changes only by an assignment in the log. */
  lemma {:induction false} ReplayInstance(w: World, events: seq<Event>)
    ensures Replay(w, events).instance == w.instance
         || AssignedInstance(Replay(w, events).instance) in events
  {
    if events != [] {
      var init := events[..|events| - 1];
      ReplayInstance(w, init);
      assert events == init + [events[|events| - 1]];
    }
  }

  /** `log` extended by `e`, and what that does to the world. */
  ghost function Then(log: seq<Event>, e: Event, w: World): (r: seq<Event>)
    ensures r == log + [e]
    ensures Replay(w, r) == Apply(Replay(w, log), e)
  {
    assert (log + [e])[..|log|] == log;
    log + [e]
  }

  /** Replaying two logs one after the other is replaying their concatenation. */
  lemma {:induction false} ReplayConcat(w: World, a: seq<Event>, b: seq<Event>)
    ensures Replay(w, a + b) == Replay(Replay(w, a), b)
    decreases |b|
  {
    if b == [] {
      assert a + b == a;
    } else {
      ReplayConcat(w, a, b[..|b| - 1]);
      assert (a + b)[..|a + b| - 1] == a + b[..|b| - 1];
    }
  }

  // ---------------------------------------------------------------------------
  // The step itself.

  class StepInstantiateTemplate {
    /** The VM cloned from the template (nil until `Run` clones one). */
    var instance: Option<VmRef>
    /** Every effect of this step so far, in order. */
    ghost var effects: seq<Event>

    constructor ()
      ensures instance == None && effects == []
    {
      instance := None;
      effects := [];
    }

    /** The world made up of this step, a state bag, a client and a UI. */
    ghost function Now(state: StateBag, client: Client, ui: Ui): World
      reads this, state, client, ui
    {
      World(state.entries, client.calls, ui.messages, instance)
    }

    /** The step's forward work.  The state-bag type assertions of the source are
        preconditions: "config" always, "client" and "ui" once a template is set. */
    method Run(state: StateBag) returns (action: StepAction)
      requires HasConfig(state.entries)
      requires state.entries["config"].config.sourceTemplate != "" ==>
                 HasClient(state.entries) && HasUi(state.entries)
      modifies this, state, Collaborators(state.entries)
      ensures var cfg := old(state.entries)["config"].config;
              var t := RunSpec(cfg, ScriptIn(old(state.entries)));
        && action == t.action
        && effects == old(effects) + t.events
        && (cfg.sourceTemplate == "" ==>
              unchanged(this, state) && unchanged(Collaborators(old(state.entries))))
        && (cfg.sourceTemplate != "" ==>
              var client, ui := old(state.entries)["client"].client, old(state.entries)["ui"].ui;
              Now(state, client, ui) == Replay(old(Now(state, client, ui)), t.events))
    {
      var config := state.entries["config"].config;
      if config.sourceTemplate == "" {
        return ActionContinue;
      }
      var client := state.entries["client"].client;
      var ui := state.entries["ui"].ui;
      ghost var w0 := Now(state, client, ui);

      ui.Say(StepBanner);
      ghost var log := Then([], Emitted(Say(StepBanner)), w0);
      assert Now(state, client, ui) == Replay(w0, log);

      var template: VmRef;
      if HasUuidPrefix(config.sourceTemplate) {
        var templateUuid := config.sourceTemplate[7..];
        var found := client.GetVMByUuid(templateUuid);
        log := Then(log, Called(Call.GetVMByUuid(templateUuid)), w0);
        assert Now(state, client, ui) == Replay(w0, log);
        if found.Err? {
          ui.Error(UuidLookupFailed(templateUuid, found.error));
          log := Then(log, Emitted(Error(UuidLookupFailed(templateUuid, found.error))), w0);
          assert Now(state, client, ui) == Replay(w0, log);
          ui.Error(DefaultingToSourcePath);
          log := Then(log, Emitted(Error(DefaultingToSourcePath)), w0);
          effects := effects + log;
          return ActionContinue;
        }
        template := found.value;
      } else {
        var found := client.GetVMByNameLabel(config.sourceTemplate);
        log := Then(log, Called(Call.GetVMByNameLabel(config.sourceTemplate)), w0);
        assert Now(state, client, ui) == Replay(w0, log);
        if found.Err? {
          ui.Error(NameLabelLookupFailed(found.error));
          log := Then(log, Emitted(Error(NameLabelLookupFailed(found.error))), w0);
          assert Now(state, client, ui) == Replay(w0, log);
          ui.Error(DefaultingToSourcePath);
          log := Then(log, Emitted(Error(DefaultingToSourcePath)), w0);
          effects := effects + log;
          return ActionContinue;
        }
        var templates := found.value;
        if |templates| == 0 {
          ui.Error(NoTemplateNamed(config.sourceTemplate));
          log := Then(log, Emitted(Error(NoTemplateNamed(config.sourceTemplate))), w0);
          assert Now(state, client, ui) == Replay(w0, log);
          ui.Error(DefaultingToSourcePath);
          log := Then(log, Emitted(Error(DefaultingToSourcePath)), w0);
          effects := effects + log;
          return ActionContinue;
        } else if |templates| > 1 {
          ui.Error(NameLabelNotUnique(config.sourceTemplate));
          log := Then(log, Emitted(Error(NameLabelNotUnique(config.sourceTemplate))), w0);
          assert Now(state, client, ui) == Replay(w0, log);
          ui.Error(DefaultingToSourcePath);
          log := Then(log, Emitted(Error(DefaultingToSourcePath)), w0);
          effects := effects + log;
          return ActionContinue;
        }
        template := templates[0];
      }

      ghost var finalised;
      action, finalised := Finalise(state, client, ui, template, config);
      ReplayConcat(w0, log, finalised);
      effects := effects + (log + finalised);
    }

    /** Clone the resolved template, publish the new VM's UUID, convert it from
        a template into a VM and set its description; any failure halts. */
    method Finalise(state: StateBag, client: Client, ui: Ui, template: VmRef, config: Config)
      returns (action: StepAction, ghost log: seq<Event>)
      modifies this, state, client, ui
      ensures var t := CloneSpec(config, template, client.script);
        && action == t.action && log == t.events
        && effects == old(effects)
        && Now(state, client, ui) == Replay(old(Now(state, client, ui)), log)
    {
      ghost var w0 := Now(state, client, ui);
      var cloned := client.Clone(template, config.vmName);
      log := Then([], Called(Call.Clone(template, config.vmName)), w0);
      assert Now(state, client, ui) == Replay(w0, log);
      instance := if cloned.Ok? then Some(cloned.value) else None;
      log := Then(log, AssignedInstance(instance), w0);
      assert Now(state, client, ui) == Replay(w0, log);
      if cloned.Err? {
        ui.Error(CloneFailed(cloned.error));
        log := Then(log, Emitted(Error(CloneFailed(cloned.error))), w0);
        return ActionHalt, log;
      }
      var vm := cloned.value;

      var instanceId := client.GetUuid(vm);
      log := Then(log, Called(Call.GetUuid(vm)), w0);
      assert Now(state, client, ui) == Replay(w0, log);
      if instanceId.Err? {
        ui.Error(GetUuidFailed(instanceId.error));
        log := Then(log, Emitted(Error(GetUuidFailed(instanceId.error))), w0);
        return ActionHalt, log;
      }
      state.Put(InstanceUuidKey, StringValue(instanceId.value));
      log := Then(log, Published(InstanceUuidKey, instanceId.value), w0);
      assert Now(state, client, ui) == Replay(w0, log);

      var converted := client.SetIsATemplate(vm, false);
      log := Then(log, Called(Call.SetIsATemplate(vm, false)), w0);
      assert Now(state, client, ui) == Replay(w0, log);
      if converted.Failed? {
        ui.Error(ConvertToVmFailed(converted.error));
        log := Then(log, Emitted(Error(ConvertToVmFailed(converted.error))), w0);
        return ActionHalt, log;
      }

      var described := client.SetDescription(vm, config.vmDescription);
      log := Then(log, Called(Call.SetDescription(vm, config.vmDescription)), w0);
      assert Now(state, client, ui) == Replay(w0, log);
      if described.Failed? {
        ui.Error(SetDescriptionFailed(described.error));
        log := Then(log, Emitted(Error(SetDescriptionFailed(described.error))), w0);
        return ActionHalt, log;
      }

      ui.Say(Instantiated(instanceId.value));
      log := Then(log, Emitted(Say(Instantiated(instanceId.value))), w0);
      return ActionContinue, log;
    }

    /** The step's cleanup: the source leaves it empty, so it changes nothing. */
    method Cleanup(state: StateBag)
      ensures unchanged(this, state)
    {
    }
  }
}
