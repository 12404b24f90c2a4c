/** What the instantiate-template step promises, proved about `RunSpec` and, so,
    about every run of `StepInstantiateTemplate.Run`. */
module InstantiateTemplateProperties {
  import opened XenApi
  import opened InstantiateTemplate

  /** No remote `Clone` in a log. */
  predicate NoClone(events: seq<Event>) {
    forall e :: e in events ==> !(e.Called? && e.call.Clone?)
  }

  /** No state-bag write in a log. */
  predicate WritesNothing(events: seq<Event>) {
    forall e :: e in events ==> !e.Published?
  }

  /** The template the configured lookup settles on, if it settles on one: the
      lookup by UUID when it succeeds, the lookup by name-label when it finds
      exactly one template. */
  function Resolved(cfg: Config, s: Script): Option<VmRef> {
    match Classify(cfg.sourceTemplate)
    case NoTemplate => None
    case ByUuid(_) => if s.byUuid.Ok? then Some(s.byUuid.value) else None
    case ByNameLabel(_) =>
      if s.byNameLabel.Ok? && |s.byNameLabel.value| == 1 then Some(s.byNameLabel.value[0]) else None
  }

  /** Every finalising call after the lookup succeeds. */
  predicate FinalisesCleanly(s: Script) {
    s.clone.Ok? && s.uuid.Ok? && s.setIsATemplate.Done? && s.setDescription.Done?
  }

  /** The call that looks up the configured template. */
  function LookupCall(cfg: Config): Call {
    if HasUuidPrefix(cfg.sourceTemplate) then Call.GetVMByUuid(cfg.sourceTemplate[7..])
    else Call.GetVMByNameLabel(cfg.sourceTemplate)
  }

  /** A run that resolves a template: the banner, the lookup, then the
      clone-and-finalise continuation on that template. */
  lemma ResolvedRun(cfg: Config, s: Script)
    requires Resolved(cfg, s).Some?
    ensures RunSpec(cfg, Some(s)) ==
      After([Emitted(Say(StepBanner)), Called(LookupCall(cfg))], CloneSpec(cfg, Resolved(cfg, s).value, s))
  {
    assert [Emitted(Say(StepBanner))] + [Called(LookupCall(cfg))]
        == [Emitted(Say(StepBanner)), Called(LookupCall(cfg))];
  }

  /** A run that resolves nothing: the banner, the lookup, a diagnostic and the
      fallback notice. */
  lemma UnresolvedRun(cfg: Config, s: Script)
    requires cfg.sourceTemplate != "" && Resolved(cfg, s).None?
    ensures exists why :: (RunSpec(cfg, Some(s)) ==
      Trace(ActionContinue, [Emitted(Say(StepBanner)), Called(LookupCall(cfg)),
                             Emitted(Error(why)), Emitted(Error(DefaultingToSourcePath))]))
  {
    var t := RunSpec(cfg, Some(s));
    assert t.events[2].Emitted? && t.events[2].message.Error?;
    var why := t.events[2].message.diagnostic;
    assert t.events == [Emitted(Say(StepBanner)), Called(LookupCall(cfg)),
                        Emitted(Error(why)), Emitted(Error(DefaultingToSourcePath))];
  }

  // ---------------------------------------------------------------------------
  // The specifier.

  /** The prefix test holds exactly of the strings that are the prefix followed
      by something. */
  lemma UuidPrefixCharacterised(s: string)
    ensures HasUuidPrefix(s) <==> exists id :: s == UuidPrefix + id
  {
    if HasUuidPrefix(s) {
      assert s == UuidPrefix + s[7..];
    }
    forall id | s == UuidPrefix + id
      ensures HasUuidPrefix(s)
    {
      assert s[..7] == UuidPrefix;
    }
  }

  /** The id looked up is what follows the prefix, whatever it is. */
  lemma ClassifyUuid(id: string)
    ensures Classify(UuidPrefix + id) == ByUuid(id)
  {
    assert (UuidPrefix + id)[..7] == UuidPrefix;
    assert (UuidPrefix + id)[7..] == id;
  }

  /** The prefix alone asks for the empty UUID. */
  lemma BareUuidPrefix()
    ensures Classify("uuid://") == ByUuid("")
  {
    ClassifyUuid("");
  }

  /** A non-empty string shorter than the prefix is a name-label. */
  lemma ShortSpecifierIsNameLabel(s: string)
    requires 0 < |s| < |UuidPrefix|
    ensures Classify(s) == ByNameLabel(s)
  {
  }

  /** The prefix test is case-sensitive: a specifier starting with a capital
      `U` is a name-label, even `UUID://...`. */
  lemma PrefixIsCaseSensitive(s: string)
    requires |s| >= |UuidPrefix| && s[0] == 'U'
    ensures Classify(s) == ByNameLabel(s)
  {
  }

  // ---------------------------------------------------------------------------
  // No template configured.

  /** An empty `SourceTemplate`: Continue, and nothing else happens. */
  lemma EmptySourceTemplateIsNoOp(cfg: Config, script: Option<Script>)
    requires cfg.sourceTemplate == ""
    ensures RunSpec(cfg, script) == Trace(ActionContinue, [])
  {
  }

  // ---------------------------------------------------------------------------
  // Resolution failures fall back to `source_path`.

  /** A failed UUID lookup reports the UUID and the cause, then the fallback
      notice, and continues without cloning or writing the bag. */
  lemma UuidLookupFailureFallsBack(cfg: Config, s: Script, id: string, cause: string)
    requires cfg.sourceTemplate == UuidPrefix + id
    requires s.byUuid == Err(cause)
    ensures var t := RunSpec(cfg, Some(s));
      && t.action == ActionContinue
      && t.events == [Emitted(Say(StepBanner)), Called(Call.GetVMByUuid(id)),
                      Emitted(Error(UuidLookupFailed(id, cause))), Emitted(Error(DefaultingToSourcePath))]
      && NoClone(t.events) && WritesNothing(t.events)
  {
    ClassifyUuid(id);
  }

  /** A failed name-label lookup, no match or several matches: each reported
      with its own diagnostic, then the fallback notice, and the build goes on
      without cloning or writing the bag. */
  lemma NameLabelFailureFallsBack(cfg: Config, s: Script)
    requires Classify(cfg.sourceTemplate).ByNameLabel?
    requires s.byNameLabel.Err? || |s.byNameLabel.value| != 1
    ensures var t := RunSpec(cfg, Some(s));
      && t.action == ActionContinue
      && |t.events| == 4
      && t.events[..2] == [Emitted(Say(StepBanner)), Called(Call.GetVMByNameLabel(cfg.sourceTemplate))]
      && t.events[2] == Emitted(Error(
           if s.byNameLabel.Err? then NameLabelLookupFailed(s.byNameLabel.error)
           else if |s.byNameLabel.value| == 0 then NoTemplateNamed(cfg.sourceTemplate)
           else NameLabelNotUnique(cfg.sourceTemplate)))
      && t.events[3] == Emitted(Error(DefaultingToSourcePath))
      && NoClone(t.events) && WritesNothing(t.events)
  {
  }

  // ---------------------------------------------------------------------------
  // The lookups agree once a template is found.

  /** A name-label that matches exactly one template goes on exactly as a UUID
      lookup that finds that template. */
  lemma UniqueNameLabelActsAsUuid(cfgName: Config, sName: Script, cfgUuid: Config, sUuid: Script,
                                  template: VmRef)
    requires Classify(cfgName.sourceTemplate).ByNameLabel? && sName.byNameLabel == Ok([template])
    requires Classify(cfgUuid.sourceTemplate).ByUuid? && sUuid.byUuid == Ok(template)
    requires cfgName.vmName == cfgUuid.vmName && cfgName.vmDescription == cfgUuid.vmDescription
    requires sName.clone == sUuid.clone && sName.uuid == sUuid.uuid
    requires sName.setIsATemplate == sUuid.setIsATemplate && sName.setDescription == sUuid.setDescription
    ensures var byName, byUuid := RunSpec(cfgName, Some(sName)), RunSpec(cfgUuid, Some(sUuid));
      && byName.action == byUuid.action
      && |byName.events| == |byUuid.events| >= 3
      && byName.events[2..] == byUuid.events[2..]
      && byName.events[2] == Called(Call.Clone(template, cfgName.vmName))
  {
  }

  /** Clone is called exactly when a template was resolved, on that template,
      under the configured VM name, and never more than once. */
  lemma ClonesTheResolvedTemplate(cfg: Config, s: Script)
    ensures var t := RunSpec(cfg, Some(s));
      && (forall template, name ::
            Called(Call.Clone(template, name)) in t.events <==>
              Resolved(cfg, s) == Some(template) && name == cfg.vmName)
      && (forall i, j :: 0 <= i < j < |t.events| && t.events[i].Called? && t.events[i].call.Clone?
            ==> !(t.events[j].Called? && t.events[j].call.Clone?))
  {
    var t := RunSpec(cfg, Some(s));
    if Resolved(cfg, s).Some? {
      ResolvedRun(cfg, s);
      CloneFirst(cfg, Resolved(cfg, s).value, s);
      var c := CloneSpec(cfg, Resolved(cfg, s).value, s);
      assert t.events[2] == Called(Call.Clone(Resolved(cfg, s).value, cfg.vmName));
      forall i | 0 <= i < |t.events| && i != 2
        ensures !(t.events[i].Called? && t.events[i].call.Clone?)
      {
        if i > 2 {
          assert t.events[i] == c.events[i - 2];
        }
      }
    } else if cfg.sourceTemplate != "" {
      UnresolvedRun(cfg, s);
    }
  }

  /** In the clone-and-finalise part, Clone is the first call and the only one. */
  lemma CloneFirst(cfg: Config, template: VmRef, s: Script)
    ensures var t := CloneSpec(cfg, template, s);
      && |t.events| >= 2
      && t.events[0] == Called(Call.Clone(template, cfg.vmName))
      && forall i :: 1 <= i < |t.events| ==> !(t.events[i].Called? && t.events[i].call.Clone?)
  {
  }

  // ---------------------------------------------------------------------------
  // Cloning and finalising.

  /** A failed Clone or GetUuid halts with nothing written to the bag and no
      later call made. */
  lemma EarlyFinaliseFailureHalts(cfg: Config, s: Script)
    requires Resolved(cfg, s).Some?
    requires s.clone.Err? || s.uuid.Err?
    ensures var t := RunSpec(cfg, Some(s));
      && t.action == ActionHalt
      && WritesNothing(t.events)
      && t.events[|t.events| - 1] == Emitted(Error(
           if s.clone.Err? then CloneFailed(s.clone.error) else GetUuidFailed(s.uuid.error)))
      && forall e :: e in t.events && e.Called? ==> !e.call.SetIsATemplate? && !e.call.SetDescription?
  {
    ResolvedRun(cfg, s);
    var template := Resolved(cfg, s).value;
    var c := CloneSpec(cfg, template, s);
    if s.clone.Err? {
      assert c.events == [Called(Call.Clone(template, cfg.vmName)), AssignedInstance(None),
                          Emitted(Error(CloneFailed(s.clone.error)))];
    } else {
      assert c.events == [Called(Call.Clone(template, cfg.vmName)), AssignedInstance(Some(s.clone.value)),
                          Called(Call.GetUuid(s.clone.value)), Emitted(Error(GetUuidFailed(s.uuid.error)))];
    }
  }

  /** Once GetUuid returns `id`, the bag gets exactly `id` under
      "instance_uuid", before SetIsATemplate is attempted. */
  lemma PublishedBeforeConversion(cfg: Config, s: Script, vm: VmRef, id: string)
    requires Resolved(cfg, s).Some?
    requires s.clone == Ok(vm) && s.uuid == Ok(id)
    ensures var t := RunSpec(cfg, Some(s));
      exists i, j :: 0 <= i < j < |t.events|
        && t.events[i] == Published(InstanceUuidKey, id)
        && t.events[j] == Called(Call.SetIsATemplate(vm, false))
  {
    var t := RunSpec(cfg, Some(s));
    assert t.events[5] == Published(InstanceUuidKey, id);
    assert t.events[6] == Called(Call.SetIsATemplate(vm, false));
  }

  /** A failed SetIsATemplate or SetDescription halts; the UUID is already
      published; SetDescription is never tried after SetIsATemplate failed. */
  lemma LateFinaliseFailureHalts(cfg: Config, s: Script, id: string)
    requires Resolved(cfg, s).Some?
    requires s.clone.Ok? && s.uuid == Ok(id)
    requires s.setIsATemplate.Failed? || s.setDescription.Failed?
    ensures var t := RunSpec(cfg, Some(s));
      && t.action == ActionHalt
      && Published(InstanceUuidKey, id) in t.events
      && t.events[|t.events| - 1] == Emitted(Error(
           if s.setIsATemplate.Failed? then ConvertToVmFailed(s.setIsATemplate.error)
           else SetDescriptionFailed(s.setDescription.error)))
      && (s.setIsATemplate.Failed? ==>
            forall e :: e in t.events && e.Called? ==> !e.call.SetDescription?)
  {
  }

  /** When every call succeeds the step continues and its last message names
      the UUID it published. */
  lemma FullSuccess(cfg: Config, s: Script, vm: VmRef, id: string)
    requires Resolved(cfg, s).Some?
    requires s.clone == Ok(vm) && s.uuid == Ok(id) && s.setIsATemplate.Done? && s.setDescription.Done?
    ensures var t := RunSpec(cfg, Some(s));
      && t.action == ActionContinue
      && t.events == [Emitted(Say(StepBanner)), Called(LookupCall(cfg)),
                      Called(Call.Clone(Resolved(cfg, s).value, cfg.vmName)), AssignedInstance(Some(vm)),
                      Called(Call.GetUuid(vm)), Published(InstanceUuidKey, id),
                      Called(Call.SetIsATemplate(vm, false)), Called(Call.SetDescription(vm, cfg.vmDescription)),
                      Emitted(Say(Instantiated(id)))]
      && (forall e :: e in t.events && e.Published? ==> e == t.events[5])
      && (forall e :: e in t.events && e.AssignedInstance? ==> e == AssignedInstance(Some(vm)))
  {
    ResolvedRun(cfg, s);
    var c := CloneSpec(cfg, Resolved(cfg, s).value, s);
    assert c.events == [Called(Call.Clone(Resolved(cfg, s).value, cfg.vmName)), AssignedInstance(Some(vm)),
                        Called(Call.GetUuid(vm)), Published(InstanceUuidKey, id),
                        Called(Call.SetIsATemplate(vm, false)), Called(Call.SetDescription(vm, cfg.vmDescription)),
                        Emitted(Say(Instantiated(id)))];
  }

  /** Once GetUuid succeeds, whatever follows, the bag ends up holding the
      returned UUID under "instance_uuid" and nothing else changes in it; the
      step holds the clone. */
  lemma PublishedUuidStays(cfg: Config, s: Script, vm: VmRef, id: string, w: World)
    requires Resolved(cfg, s).Some?
    requires s.clone == Ok(vm) && s.uuid == Ok(id)
    ensures var t := RunSpec(cfg, Some(s));
      && Replay(w, t.events).entries == w.entries[InstanceUuidKey := StringValue(id)]
      && Replay(w, t.events).instance == Some(vm)
  {
    ResolvedRun(cfg, s);
    var looked := [Emitted(Say(StepBanner)), Called(LookupCall(cfg))];
    var c := CloneSpec(cfg, Resolved(cfg, s).value, s);
    ReplayConcat(w, looked, c.events);
    ReplayQuiet(w, looked);
    ClonePublishes(cfg, Resolved(cfg, s).value, s, vm, id, Replay(w, looked));
  }

  /** The same, for the clone-and-finalise part alone. */
  lemma ClonePublishes(cfg: Config, template: VmRef, s: Script, vm: VmRef, id: string, w: World)
    requires s.clone == Ok(vm) && s.uuid == Ok(id)
    ensures var t := CloneSpec(cfg, template, s);
      && Replay(w, t.events).entries == w.entries[InstanceUuidKey := StringValue(id)]
      && Replay(w, t.events).instance == Some(vm)
  {
    var t := CloneSpec(cfg, template, s);
    var cloned := [Called(Call.Clone(template, cfg.vmName)), AssignedInstance(Some(vm)), Called(Call.GetUuid(vm))];
    var published := cloned + [Published(InstanceUuidKey, id)];
    ClonePrefix(cfg, template, s, vm, id);
    assert t.events == published + t.events[4..];
    ReplayConcat(w, published, t.events[4..]);
    ReplayConcat(w, cloned, [Published(InstanceUuidKey, id)]);
    ReplayConcat(w, cloned[..1], cloned[1..]);
    ReplayQuiet(w, cloned[..1]);
    ReplayQuiet(Replay(w, cloned[..2]), cloned[2..]);
    ReplayConcat(w, cloned[..2], cloned[2..]);
    assert cloned[..2][..1] == cloned[..1];
    ReplayQuiet(Replay(w, published), t.events[4..]);
  }

  /** Once the clone has a UUID, the rest of the log is calls and messages. */
  lemma ClonePrefix(cfg: Config, template: VmRef, s: Script, vm: VmRef, id: string)
    requires s.clone == Ok(vm) && s.uuid == Ok(id)
    ensures var t := CloneSpec(cfg, template, s);
      && |t.events| >= 4
      && t.events[..4] == [Called(Call.Clone(template, cfg.vmName)), AssignedInstance(Some(vm)),
                           Called(Call.GetUuid(vm)), Published(InstanceUuidKey, id)]
      && Quiet(t.events[4..])
  {
  }

  // ---------------------------------------------------------------------------
  // The outcome, over all inputs.

  /** The step halts exactly when a template was resolved and some finalising
      call failed; it writes the bag exactly when it got as far as GetUuid
      succeeding; the only key it ever writes is "instance_uuid". */
  lemma OutcomeClasses(cfg: Config, s: Script)
    requires cfg.sourceTemplate != ""
    ensures var t := RunSpec(cfg, Some(s));
      && (t.action == ActionHalt <==> Resolved(cfg, s).Some? && !FinalisesCleanly(s))
      && (WritesNothing(t.events) <==> Resolved(cfg, s).None? || s.clone.Err? || s.uuid.Err?)
      && (forall e :: e in t.events && e.Published? ==> e.key == InstanceUuidKey)
      && (Resolved(cfg, s).None? ==> NoClone(t.events) && t.action == ActionContinue)
  {
    var t := RunSpec(cfg, Some(s));
    if Resolved(cfg, s).Some? {
      ResolvedRun(cfg, s);
      var c := CloneSpec(cfg, Resolved(cfg, s).value, s);
      CloneOutcome(cfg, Resolved(cfg, s).value, s);
      assert forall e :: e in t.events ==> e in c.events || e.Called? || e.Emitted?;
      if s.clone.Ok? && s.uuid.Ok? {
        assert c.events[3] == t.events[5];
      }
    } else {
      UnresolvedRun(cfg, s);
    }
  }

  /** The clone-and-finalise part halts exactly when a call fails, and writes
      "instance_uuid", alone, exactly when Clone and GetUuid succeed. */
  lemma CloneOutcome(cfg: Config, template: VmRef, s: Script)
    ensures var t := CloneSpec(cfg, template, s);
      && (t.action == ActionHalt <==> !FinalisesCleanly(s))
      && (WritesNothing(t.events) <==> s.clone.Err? || s.uuid.Err?)
      && (forall e :: e in t.events && e.Published? ==> e.key == InstanceUuidKey)
  {
    var t := CloneSpec(cfg, template, s);
    if s.clone.Ok? && s.uuid.Ok? {
      assert t.events[3] == Published(InstanceUuidKey, s.uuid.value);
    }
  }

  // ---------------------------------------------------------------------------
  // Replaying logs.

  /** Every event of a log is a remote call or a UI message. */
  predicate Quiet(events: seq<Event>) {
    forall e :: e in events ==> e.Called? || e.Emitted?
  }

  /** A log of calls and messages changes neither the bag nor `instance`. */
  lemma {:induction false} ReplayQuiet(w: World, events: seq<Event>)
    requires Quiet(events)
    ensures Replay(w, events).entries == w.entries && Replay(w, events).instance == w.instance
  {
    if events != [] {
      var init := events[..|events| - 1];
      assert forall e :: e in init ==> e in events;
      ReplayQuiet(w, init);
    }
  }

  /** A log that writes nothing leaves the state bag exactly as it was. */
  lemma WritesNothingKeepsBag(w: World, events: seq<Event>)
    requires WritesNothing(events)
    ensures Replay(w, events).entries == w.entries
  {
    ReplayKeepsEntries(w, events);
    assert PublishedKeys(events) == {};
  }

  /** A run whose template was not resolved, or whose Clone or GetUuid failed,
      leaves the state bag as it was; without a resolved template the step's
      `instance` is untouched too. */
  lemma FailedRunKeepsBag(cfg: Config, s: Script, w: World)
    requires cfg.sourceTemplate != ""
    requires Resolved(cfg, s).None? || s.clone.Err? || s.uuid.Err?
    ensures Replay(w, RunSpec(cfg, Some(s)).events).entries == w.entries
    ensures Resolved(cfg, s).None? ==> Replay(w, RunSpec(cfg, Some(s)).events).instance == w.instance
  {
    var t := RunSpec(cfg, Some(s));
    OutcomeClasses(cfg, s);
    WritesNothingKeepsBag(w, t.events);
    if Resolved(cfg, s).None? {
      UnresolvedRun(cfg, s);
      ReplayQuiet(w, t.events);
    }
  }

  // ---------------------------------------------------------------------------
  // The step object.

  /** A fresh step run with no template configured leaves the bag as it was
      and makes no call. */
  method RunWithoutTemplate(cfg: Config) returns (action: StepAction)
    requires cfg.sourceTemplate == ""
    ensures action == ActionContinue
  {
    var entries := map["config" := ConfigValue(cfg)];
    var state := new StateBag(entries);
    var step := new StepInstantiateTemplate();
    action := step.Run(state);
    assert state.entries == entries;
    step.Cleanup(state);
  }

  /** A full run against a control plane that answers every call: the bag ends
      up holding the UUID of the new VM under "instance_uuid". */
  method RunAgainstHealthyPlatform(cfg: Config, s: Script, vm: VmRef, id: string)
    returns (action: StepAction, published: Value)
    requires Resolved(cfg, s).Some?
    requires s.clone == Ok(vm) && s.uuid == Ok(id) && s.setIsATemplate.Done? && s.setDescription.Done?
    ensures action == ActionContinue && published == StringValue(id)
  {
    var client := new Client(s);
    var ui := new Ui();
    var state := new StateBag(map["config" := ConfigValue(cfg), "client" := ClientValue(client),
                                  "ui" := UiValue(ui)]);
    var step := new StepInstantiateTemplate();
    ghost var w0 := step.Now(state, client, ui);
    action := step.Run(state);
    PublishedUuidStays(cfg, s, vm, id, w0);
    published := state.entries[InstanceUuidKey];
  }
}
