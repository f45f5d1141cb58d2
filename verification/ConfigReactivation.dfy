/** Planning again on the result of a plan: when that is a fixed point, when it is
    refused, and that an activation can be undone. */
module ConfigReactivation {
  import opened Options
  import opened ConfigDocument
  import opened ConfigSlots
  import opened ConfigEndpoint
  import opened ConfigPlan
  import opened ConfigRecovery
  import opened ConfigLifecycle

  function At(fields: map<Name, Json>, name: Name): Option<Json> {
    if name in fields then Some(fields[name]) else None
  }

  /** An edit is a constant, or leaves the value alone. */
  function Effect(e: Edit, old_: Option<Json>): Option<Json> {
    match e
    case Keep => old_
    case Clear => None
    case Put(v) => Some(v)
  }

  function PrefsEffect(prefs: Prefs, role: RoleName, name: Name, x: Option<Json>): Option<Json> {
    match name
    case Provider => if prefs.family.Some? then Some(Str(OwnedProvider(prefs.family.value, role))) else x
    case Model => Effect(prefs.model, x)
    case ModeId => Effect(prefs.modeId, x)
    case ThinkingOptionId => Effect(prefs.thinking, if prefs.family == Some(Antigravity) && prefs.thinking.Keep? then None else x)
    case FeatureValues => Effect(prefs.features, x)
    case _ => x
  }

  lemma EditedAt(fields: map<Name, Json>, field: Name, e: Edit, name: Name)
    ensures At(Edited(fields, field, e), name) == if name == field then Effect(e, At(fields, name)) else At(fields, name)
  {
  }

  lemma EditFieldsAt(fields: map<Name, Json>, prefs: Prefs, name: Name)
    ensures At(EditFields(fields, prefs), name) ==
            match name
            case Model => Effect(prefs.model, At(fields, name))
            case ModeId => Effect(prefs.modeId, At(fields, name))
            case ThinkingOptionId => Effect(prefs.thinking, At(fields, name))
            case FeatureValues => Effect(prefs.features, At(fields, name))
            case _ => At(fields, name)
  {
    hide Edited, At, Effect;
    var f1 := Edited(fields, Model, prefs.model);
    var f2 := Edited(f1, ModeId, prefs.modeId);
    var f3 := Edited(f2, ThinkingOptionId, prefs.thinking);
    EditedAt(fields, Model, prefs.model, name);
    EditedAt(f1, ModeId, prefs.modeId, name);
    EditedAt(f2, ThinkingOptionId, prefs.thinking, name);
    EditedAt(f3, FeatureValues, prefs.features, name);
  }

  lemma RepointAt(fields: map<Name, Json>, family: Family, role: RoleName, asked: bool, name: Name)
    ensures At(Repoint(fields, family, role, asked), name) ==
            if name.Provider? then Some(Str(OwnedProvider(family, role)))
            else if name.ThinkingOptionId? && family.Antigravity? && !asked then None
            else At(fields, name)
  {
  }

  lemma PrefsAt(fields: map<Name, Json>, prefs: Prefs, role: RoleName, name: Name)
    ensures At(ApplyPrefs(fields, prefs, role), name) == PrefsEffect(prefs, role, name, At(fields, name))
  {
    hide EditFields, Repoint, At;
    if prefs.family.Some? {
      RepointAt(fields, prefs.family.value, role, !prefs.thinking.Keep?, name);
      EditFieldsAt(Repoint(fields, prefs.family.value, role, !prefs.thinking.Keep?), prefs, name);
    } else {
      EditFieldsAt(fields, prefs, name);
    }
  }

  lemma SameFields(x: map<Name, Json>, y: map<Name, Json>)
    requires forall name: Name :: At(x, name) == At(y, name)
    ensures x == y
  {
    forall name | name in x || name in y
      ensures name in x && name in y && x[name] == y[name]
    {
      assert At(x, name) == At(y, name);
    }
  }

  lemma RebindAt(fields: map<Name, Json>, prefs: Prefs, choice: Option<Choice>, role: RoleName, name: Name)
    ensures At(RebindEdits(fields, prefs, choice, role), name) ==
            var x := At(fields, name);
            PrefsEffect(prefs, role, name, if choice.Some? then PrefsEffect(AsPrefs(choice.value), role, name, x) else x)
  {
    hide ApplyPrefs, ApplyRouting, PrefsEffect, At;
    if choice.Some? {
      RoutingIsAnEdit(fields, choice.value, role);
      PrefsAt(fields, AsPrefs(choice.value), role, name);
      PrefsAt(ApplyRouting(fields, choice.value, role), prefs, role, name);
    } else {
      PrefsAt(fields, prefs, role, name);
    }
  }

  /** Applying a routing and preferences to their own result changes nothing. */
  lemma RebindTwice(fields: map<Name, Json>, prefs: Prefs, choice: Option<Choice>, role: RoleName)
    ensures var once := RebindEdits(fields, prefs, choice, role); RebindEdits(once, prefs, choice, role) == once
  {
    hide RebindEdits, At;
    var once := RebindEdits(fields, prefs, choice, role);
    forall name: Name
      ensures At(RebindEdits(once, prefs, choice, role), name) == At(once, name)
    {
      RebindAt(fields, prefs, choice, role, name);
      RebindAt(once, prefs, choice, role, name);
    }
    SameFields(RebindEdits(once, prefs, choice, role), once);
  }

  // --- planning on the patched document

  /** Choosing places again for profiles that are already in place finds those places. */
  lemma PlacesAreFound(entries: seq<Json>, base: seq<Json>, supervisor: Json, lead: Json)
    requires IdOf(supervisor) == Some(SlpSupervisor) && IdOf(lead) == Some(SlpLead)
    requires SlotsOf(entries) == ComputeSlots(base, supervisor, lead)
    ensures ComputeSlots(entries, supervisor, lead) == SlotsOf(entries)
    ensures WithId(entries, SlpSupervisor) == [supervisor] && WithId(entries, SlpLead) == [lead]
  {
    var slots := SlotsOf(entries);
    SlotsAreThere(entries);
    assert slots[0] in slots && slots[1] in slots && |slots| == 2;
    IndexIsFirst(entries, SlpSupervisor);
    IndexIsFirst(entries, SlpLead);
    FoundBySlots(entries, SlpSupervisor);
    FoundBySlots(entries, SlpLead);
    OnlyPlace(entries, slots, SlpSupervisor);
    OnlyPlace(entries, slots, SlpLead);
    ValuesOfTwo(slots, supervisor, lead);
  }

  function ValuesWith(slots: seq<Slot>, id: Name): seq<Json> {
    if slots == [] then []
    else
      var init, last := slots[..|slots| - 1], slots[|slots| - 1];
      if IdOf(last.value) == Some(id) then ValuesWith(init, id) + [last.value] else ValuesWith(init, id)
  }

  lemma {:induction false} FoundBySlots(entries: seq<Json>, id: Name)
    requires id == SlpSupervisor || id == SlpLead
    ensures WithId(entries, id) == ValuesWith(SlotsOf(entries), id)
  {
    if entries != [] {
      var init, last := entries[..|entries| - 1], entries[|entries| - 1];
      FoundBySlots(init, id);
      if IsOwnedProfile(last) {
        var slots := SlotsOf(init) + [Slot(|init|, last)];
        assert slots[..|slots| - 1] == SlotsOf(init);
      }
    }
  }

  lemma ValuesOfTwo(slots: seq<Slot>, supervisor: Json, lead: Json)
    requires |slots| == 2 && IdOf(supervisor) == Some(SlpSupervisor) && IdOf(lead) == Some(SlpLead)
    requires (slots[0].value == supervisor && slots[1].value == lead) || (slots[0].value == lead && slots[1].value == supervisor)
    ensures ValuesWith(slots, SlpSupervisor) == [supervisor] && ValuesWith(slots, SlpLead) == [lead]
  {
    assert slots[..1][..0] == [] && slots[..1] == [slots[0]];
    assert ValuesWith(slots[..1][..0], SlpSupervisor) == [] && ValuesWith(slots[..1][..0], SlpLead) == [];
    assert ValuesWith(slots[..1], SlpSupervisor) == if slots[0].value == supervisor then [supervisor] else [];
    assert ValuesWith(slots[..1], SlpLead) == if slots[0].value == lead then [lead] else [];
  }

  /** The first place with an owned id is the place of its slot. */
  lemma OnlyPlace(entries: seq<Json>, slots: seq<Slot>, id: Name)
    requires slots == SlotsOf(entries) && |slots| == 2 && (id == SlpSupervisor || id == SlpLead)
    requires IdOf(slots[0].value) != IdOf(slots[1].value)
    ensures forall k :: 0 <= k < 2 && IdOf(slots[k].value) == Some(id) ==> IndexOf(entries, id) == Some(slots[k].index)
  {
    SlotsAreThere(entries);
    IndexIsFirst(entries, id);
    forall k | 0 <= k < 2 && IdOf(slots[k].value) == Some(id)
      ensures IndexOf(entries, id) == Some(slots[k].index)
    {
      assert slots[k] in slots;
      var at := IndexOf(entries, id);
      assert SlotAt(entries, Slot(at.value, entries[at.value]));
    }
  }

  /** A plan's after state: its patch applied, or the state it found already there. */
  ghost predicate AtEndpoint(args: Args, raw: Json, live: Live, input: Input, chosen: Chosen, raw': Json, live': Live)
    requires chosen.Chosen?
  {
    var p := ActivePatch(args, raw, input, chosen);
    && Shaped(raw') && live'.enabled && Agrees(raw', live', false) && !HasLegacyPeer(raw')
    && ProfilesArray(raw') == p.profiles && McpFlag(raw', InjectIntoAgents) == Some(Bool(true)) && live'.inject
    && UnrelatedView(raw', OWNED) == UnrelatedView(raw, OWNED)
    && DiskMatches(args.schema, raw', ActiveProjection(args, raw, input, chosen), ProfilesHash(true, p.profiles), UnrelatedView(raw, OWNED))
    && (forall f: Family :: EnabledBase(live', f) == EnabledBase(live, f))
  }

  lemma NoLegacyAdded(args: Args, raw: Json, input: Input, chosen: Chosen, raw': Json)
    requires ExtractProjection(args.schema, raw, OWNED).Some? && !HasLegacyPeer(raw)
    requires chosen.Chosen? && ProfileOf(chosen.supervisor, Supervisor) && ProfileOf(chosen.lead, Lead)
    requires ProfilesArray(raw') == ActivePatch(args, raw, input, chosen).profiles
    ensures !HasLegacyPeer(raw')
  {
    hide ExtractProjection, ActivePatch, ProfilesArray, OWNED, ValidProfile;
    PatchedEntries(args, raw, input, chosen);
  }

  lemma PatchedAgree(args: Args, raw: Json, live: Live, p: Patch)
    requires Shaped(raw) && Agrees(raw, live, false) && p.providers.Keys !! p.removeProviders && p.providers.Keys + p.removeProviders == OWNED
    requires live.enabled
    ensures Agrees(PersistPatch(raw, p), ApplyPatch(live, p), false)
    ensures forall f: Family :: EnabledBase(ApplyPatch(live, p), f) == EnabledBase(live, f)
  {
    PersistedIs(raw, p);
    OwnedIds(Current18);
    hide PersistPatch, ProvidersRecord, ProfilesArray, McpFlag, OWNED, Shaped;
  }

  lemma DesiredPartition(args: Args, input: Input)
    ensures var desired := DesiredEntries(args, input);
            desired.Keys !! OWNED - desired.Keys && desired.Keys + (OWNED - desired.Keys) == OWNED
  {
    OwnedIds(Current18);
    KeysOfDesired(args, input);
    assert forall id <- DesiredIds(args.routing, input) :: id.OwnedProvider?;
  }

  lemma PresenceSplits(desired: map<Name, Json>, ids: set<Name>)
    requires desired.Keys <= ids
    ensures var m := map id <- ids :: if id in desired then Some(desired[id]) else None;
            && (map id <- m.Keys | m[id].Some? :: m[id].value) == desired
            && (set id <- m.Keys | m[id].None?) == ids - desired.Keys
  {
  }

  /** The planned patch is the forward patch of the plan it comes with. */
  lemma ActivePatchIsForward(args: Args, raw: Json, input: Input, chosen: Chosen)
    requires chosen.Chosen?
    ensures ActivePatch(args, raw, input, chosen) == PatchTo(ActiveProjection(args, raw, input, chosen), true, raw)
  {
    DesiredPartition(args, input);
    hide OWNED, DesiredEntries, ComputeSlots, ApplyOwnedSlots, ProfilesArray;
    PresenceSplits(DesiredEntries(args, input), OWNED);
  }

  lemma ReachesEndpoint(args: Args, raw: Json, live: Live, input: Input, previous: Option<Binding>) returns (chosen: Chosen)
    requires WellTyped(args, input) && PlanActivation(args, raw, live, input, previous).Planned?
    ensures raw.Obj? && chosen.Chosen? && ProfileOf(chosen.supervisor, Supervisor) && ProfileOf(chosen.lead, Lead)
    ensures chosen == (if previous.Some? then RebindProfiles(args, raw, input, previous.value) else FreshProfiles(args, raw, live, input))
    ensures ExtractProjection(args.schema, raw, OWNED).Some?
    ensures var plan := PlanActivation(args, raw, live, input, previous);
            && plan.next.Some? && plan.next.value.owned == ActiveProjection(args, raw, input, chosen)
            && AtEndpoint(args, raw, live, input, chosen, Persisted(raw, plan.patch), Applied(live, plan.patch))
  {
    assert OWNED == IdsOf(Current18);
    hide PlanActivation, PersistPatch, OWNED, DesiredEntries, Agrees, ExtractProjection, UnrelatedView, DiskMatches, ProfileOf, ApplyOwnedSlots;
    hide RebindProfiles, FreshProfiles, HasLegacyPeer, MetadataProviders, ProfilesArray, ComputeSlots, Shaped, LiveMatches;
    hide EnabledBase, WellTyped, ApplyPatch, SoundEndpoint, McpFlag, HasDependents;
    chosen := ActivationMeans(args, raw, live, input, previous);
    ShapedFromTyped(args, input, raw);
    ShapedIsObj(raw);
    ChosenAreProfiles(args, raw, live, input, previous);
    ActiveEndpointIsSound(args, raw, input, chosen);
    var plan := PlanActivation(args, raw, live, input, previous);
    var p := ActivePatch(args, raw, input, chosen);
    if plan.patch.Some? {
      ActivePatchIsForward(args, raw, input, chosen);
      var active, all := ActiveProjection(args, raw, input, chosen), ProfilesHash(true, p.profiles);
      PatchReaches(args.schema, Current18, active, all, UnrelatedView(raw, OWNED), true, raw, live);
      PersistedIs(raw, p);
      EndpointPatchLeavesTheRest(args.schema, Current18, active, all, UnrelatedView(raw, OWNED), raw);
      DesiredPartition(args, input);
      PatchedAgree(args, raw, live, p);
      AppliedIs(live, p);
      NoLegacyAdded(args, raw, input, chosen, PersistPatch(raw, p));
    } else {
      AlreadyThereProfiles(args, raw, input, chosen);
      AgreedInject(raw, live);
    }
  }

  lemma AppliedIs(live: Live, p: Patch)
    ensures ApplyPatch(live, p).enabled == live.enabled && ApplyPatch(live, p).inject == p.inject
  {
  }

  lemma AgreedInject(raw: Json, live: Live)
    requires Agrees(raw, live, false) && live.inject
    ensures McpFlag(raw, InjectIntoAgents) == Some(Bool(true))
  {
    hide OWNED;
  }

  lemma ShapedFromTyped(args: Args, input: Input, raw: Json)
    requires WellTyped(args, input) && args.schema.compatible(raw)
    ensures Shaped(raw)
  {
    hide Shaped;
  }

  lemma AlreadyThereProfiles(args: Args, raw: Json, input: Input, chosen: Chosen)
    requires chosen.Chosen?
    requires DiskMatches(args.schema, raw, ActiveProjection(args, raw, input, chosen),
                         ProfilesHash(true, ActivePatch(args, raw, input, chosen).profiles), UnrelatedView(raw, OWNED))
    ensures ProfilesArray(raw) == ActivePatch(args, raw, input, chosen).profiles
  {
    hide UnrelatedView, ExtractProjection, OWNED, ApplyOwnedSlots, ComputeSlots, DesiredEntries;
    AbsentIsEmpty(raw);
  }

  /** Once at the endpoint with the same profiles chosen, the plan has nothing to do. */
  lemma NothingLeftToDo(args: Args, raw: Json, live: Live, input: Input, chosen: Chosen, raw': Json, live': Live,
                        previous: Option<Binding>, before: Snapshot, again: Chosen)
    requires chosen.Chosen? && ProfileOf(chosen.supervisor, Supervisor) && ProfileOf(chosen.lead, Lead)
    requires ExtractProjection(args.schema, raw, OWNED).Some?
    requires AtEndpoint(args, raw, live, input, chosen, raw', live') && before.unrelated == UnrelatedView(raw', OWNED)
    requires again.Chosen? && again.supervisor == chosen.supervisor && again.lead == chosen.lead
    ensures var plan := ConcludeActivation(args, raw', live', input, previous, before, again);
            plan.Planned? && plan.patch.None? && plan.endpoints.afterOwned == ActiveProjection(args, raw, input, chosen)
  {
    hide Agrees, HasLegacyPeer, HasDependents, DiskMatches, UnrelatedView, ExtractProjection, OWNED, DesiredEntries, Shaped, McpFlag, EnabledBase;
    hide ComputeSlots, SlotsOf, Strip, ApplyOwnedSlots, ProfilesArray, ValidProfile;
    PatchedSlots(args, raw, input, chosen);
    PlacesAreFound(ProfilesArray(raw'), ProfilesArray(raw), chosen.supervisor, chosen.lead);
    SlotsRestore(ProfilesArray(raw'), ProfilesArray(raw'));
  }

  /** Both explicitly preferred families have a binary. */
  predicate PreferencesAvailable(args: Args, input: Input) {
    FamilyAllowed(args, input.supervisor) && FamilyAllowed(args, input.lead)
  }

  /** A chosen profile passes the checks of a rebind exactly if its preferred family is available. */
  lemma ValidAgain(args: Args, input: Input, fields: map<Name, Json>, chosen: Json, role: RoleName, raw: Json)
    requires role != Peer && ChosenFrom(args, fields, chosen, PrefsOf(input, role), role) && RoutingAvailable(args, input)
    requires WithId(ProfilesArray(raw), ProfileId(role)) == [chosen]
    ensures ValidUnderBinding(args, raw, role) <==> FamilyAllowed(args, PrefsOf(input, role))
    ensures Obj(LiveProfile(raw, role)) == chosen
  {
    EditedProvider(fields, PrefsOf(input, role), ChoiceOf(args.routing, role), role);
    hide RebindEdits, ProfilesArray, WithId;
  }

  /** A plan that finds the configuration already as it would leave it. */
  predicate NothingToPatch(plan: Plan, owned: Projection) {
    plan.Planned? && plan.patch.None? && plan.next.Some? && plan.next.value.owned == owned
  }

  /** What a rebind from the recorded binding decides at the endpoint. */
  lemma RebindAgain(args: Args, raw: Json, input: Input, chosen: Chosen, supervisor: map<Name, Json>, lead: map<Name, Json>,
                    raw': Json, binding: Binding)
    requires chosen.Chosen? && RoutingAvailable(args, input) && binding.owned == ActiveProjection(args, raw, input, chosen)
    requires ChosenFrom(args, supervisor, chosen.supervisor, input.supervisor, Supervisor)
    requires ChosenFrom(args, lead, chosen.lead, input.lead, Lead)
    requires WithId(ProfilesArray(raw'), SlpSupervisor) == [chosen.supervisor] && WithId(ProfilesArray(raw'), SlpLead) == [chosen.lead]
    requires forall id <- OWNED :: binding.owned.providers[id] == Presence(raw', id)
    requires McpFlag(raw', InjectIntoAgents) == Some(Bool(true))
    ensures var again := RebindProfiles(args, raw', input, binding);
            if PreferencesAvailable(args, input)
            then again == Chosen(chosen.supervisor, chosen.lead, binding.adopted)
            else again == Refused(OwnershipDrift)
  {
    ValidAgain(args, input, supervisor, chosen.supervisor, Supervisor, raw');
    ValidAgain(args, input, lead, chosen.lead, Lead, raw');
    RebindTwice(supervisor, input.supervisor, ChoiceOf(args.routing, Supervisor), Supervisor);
    RebindTwice(lead, input.lead, ChoiceOf(args.routing, Lead), Lead);
    hide RebindEdits, ProfilesArray, WithId, DesiredEntries, OWNED, ValidUnderBinding, LiveProfile, RoutingAvailable;
    hide FamilyAllowed, Presence, McpFlag, ComputeSlots;
    assert OWNED - binding.owned.providers.Keys == {};
  }

  lemma EndpointProviders(s: Schema, raw: Json, owned: Projection, all: ProfilesDigest, unrelated: Json)
    requires DiskMatches(s, raw, owned, all, unrelated)
    ensures forall id <- owned.providers.Keys :: owned.providers[id] == Presence(raw, id)
    ensures owned.providers.Keys == OWNED ==> ExtractProjection(s, raw, OWNED).Some?
  {
    hide ExtractProjection, UnrelatedView, OWNED, Presence;
  }

  /** Activating again with the same inputs, from the recorded binding, finds nothing
      to patch: exactly if every family explicitly preferred for a profile has a
      binary.  Otherwise the second plan reports drift; only a first plan without a
      binding and without a routing can be made with such a preference. */
  lemma ReactivationIsAFixedPoint(args: Args, raw: Json, live: Live, input: Input, previous: Option<Binding>, first: Plan)
    requires WellTyped(args, input) && first == PlanActivation(args, raw, live, input, previous) && first.Planned?
    ensures raw.Obj? && first.next.Some?
    ensures var raw', live' := Persisted(raw, first.patch), Applied(live, first.patch);
            args.schema.compatible(raw') ==>
              var again := PlanActivation(args, raw', live', input, first.next);
              if PreferencesAvailable(args, input) then NothingToPatch(again, first.next.value.owned) else again == Conflict(OwnershipDrift)
    ensures previous.Some? || args.routing.Some? ==> PreferencesAvailable(args, input)
  {
    hide PersistPatch, OWNED, DesiredEntries, Agrees, ExtractProjection, UnrelatedView, DiskMatches, ProfileOf, ApplyOwnedSlots, ActiveProjection;
    hide RebindProfiles, FreshProfiles, HasLegacyPeer, ProfilesArray, ComputeSlots, Shaped, EnabledBase, WellTyped, ApplyPatch, McpFlag;
    hide ChosenFrom, ActivePatch, ConcludeActivation, Presence;
    hide PlanActivation;
    var chosen := ReachesEndpoint(args, raw, live, input, previous);
    var raw', live' := Persisted(raw, first.patch), Applied(live, first.patch);
    var supervisor, lead := Origins(args, raw, live, input, previous);
    if args.schema.compatible(raw') {
      ReplanAt(args, raw, live, input, chosen, supervisor, lead, raw', live', first.next.value);
    }
    PreferencesChecked(args, input);
  }

  lemma PreferencesChecked(args: Args, input: Input)
    ensures args.routing.Some? && RoutingAvailable(args, input) ==> PreferencesAvailable(args, input)
  {
  }

  lemma ReplanAt(args: Args, raw: Json, live: Live, input: Input, chosen: Chosen, supervisor: map<Name, Json>, lead: map<Name, Json>,
                 raw': Json, live': Live, binding: Binding)
    requires chosen.Chosen? && ProfileOf(chosen.supervisor, Supervisor) && ProfileOf(chosen.lead, Lead) && RoutingAvailable(args, input)
    requires ChosenFrom(args, supervisor, chosen.supervisor, input.supervisor, Supervisor)
    requires ChosenFrom(args, lead, chosen.lead, input.lead, Lead)
    requires ExtractProjection(args.schema, raw, OWNED).Some? && binding.owned == ActiveProjection(args, raw, input, chosen)
    requires AtEndpoint(args, raw, live, input, chosen, raw', live') && args.schema.compatible(raw')
    ensures var again := PlanActivation(args, raw', live', input, Some(binding));
            if PreferencesAvailable(args, input)
            then NothingToPatch(again, binding.owned)
            else again == Conflict(OwnershipDrift)
  {
    hide OWNED, DesiredEntries, Agrees, ExtractProjection, UnrelatedView, DiskMatches, ProfileOf, ApplyOwnedSlots, HasLegacyPeer, ProfilesArray;
    hide ComputeSlots, Shaped, EnabledBase, McpFlag, ChosenFrom, Presence, RebindProfiles, SlotsOf, Strip, RoutingAvailable, HasDependents;
    hide PreferencesAvailable;
    EndpointProviders(args.schema, raw', ActiveProjection(args, raw, input, chosen),
                      ProfilesHash(true, ActivePatch(args, raw, input, chosen).profiles), UnrelatedView(raw, OWNED));
    PatchedSlots(args, raw, input, chosen);
    ProfileIds(chosen);
    PlacesAreFound(ProfilesArray(raw'), ProfilesArray(raw), chosen.supervisor, chosen.lead);
    hide WithId;
    RebindAgain(args, raw, input, chosen, supervisor, lead, raw', binding);
    var before := SnapshotFrom(args.schema, raw', live').value;
    var again := RebindProfiles(args, raw', input, binding);
    if PreferencesAvailable(args, input) {
      NothingLeftToDo(args, raw, live, input, chosen, raw', live', Some(binding), before, again);
    }
  }

  lemma ProfileIds(chosen: Chosen)
    requires chosen.Chosen? && ProfileOf(chosen.supervisor, Supervisor) && ProfileOf(chosen.lead, Lead)
    ensures IdOf(chosen.supervisor) == Some(SlpSupervisor) && IdOf(chosen.lead) == Some(SlpLead)
  {
    hide ValidProfile;
  }

  lemma SameFirst(families: seq<Family>, wanted: Family -> bool, other: Family -> bool)
    requires forall f: Family :: wanted(f) == other(f)
    ensures FirstFamily(families, wanted) == FirstFamily(families, other)
  {
  }

  lemma SameSelection(args: Args, live: Live, live': Live, requested: Option<Family>)
    requires forall f: Family :: EnabledBase(live', f) == EnabledBase(live, f)
    ensures SelectFamily(args, live', requested) == SelectFamily(args, live, requested)
  {
    SameFirst(REGISTRY, (f: Family) => f in args.available && EnabledBase(live', f), (f: Family) => f in args.available && EnabledBase(live, f));
  }

  /** What a fresh plan with adoption decides at the endpoint of a fresh plan. */
  lemma AdoptAgain(args: Args, raw: Json, live: Live, input: Input, chosen: Chosen, raw': Json, live': Live)
    requires chosen == FreshProfiles(args, raw, live, input) && chosen.Chosen? && input.adoptIdentical
    requires WithId(ProfilesArray(raw'), SlpSupervisor) == [chosen.supervisor] && WithId(ProfilesArray(raw'), SlpLead) == [chosen.lead]
    requires forall id <- OWNED :: ActiveProjection(args, raw, input, chosen).providers[id] == Presence(raw', id)
    requires forall f: Family :: EnabledBase(live', f) == EnabledBase(live, f)
    ensures var again := FreshProfiles(args, raw', live', input);
            again.Chosen? && again.supervisor == chosen.supervisor && again.lead == chosen.lead
  {
    SameSelection(args, live, live', input.initialFamily);
    hide DesiredEntries, OWNED, DesiredProfile, SelectFamily, EnabledBase, RoutingAvailable, Presence, ProfilesArray, WithId, ComputeSlots;
    var active := ActiveProjection(args, raw, input, chosen);
    var desired := DesiredEntries(args, input);
    assert forall id <- OWNED :: Presence(raw', id).Some? ==> id in desired && Presence(raw', id).value == desired[id];
  }

  /** Activating again with the binding lost: adopting the identical entries finds
      nothing to patch, whatever families were preferred. */
  lemma AdoptionIsAFixedPoint(args: Args, raw: Json, live: Live, input: Input, first: Plan)
    requires WellTyped(args, input) && input.adoptIdentical && first == PlanActivation(args, raw, live, input, None) && first.Planned?
    ensures raw.Obj? && first.next.Some?
    ensures var raw', live' := Persisted(raw, first.patch), Applied(live, first.patch);
            args.schema.compatible(raw') ==> NothingToPatch(PlanActivation(args, raw', live', input, None), first.next.value.owned)
  {
    hide PersistPatch, OWNED, DesiredEntries, Agrees, ExtractProjection, UnrelatedView, DiskMatches, ProfileOf, ApplyOwnedSlots, ActiveProjection;
    hide RebindProfiles, FreshProfiles, HasLegacyPeer, ProfilesArray, ComputeSlots, Shaped, EnabledBase, WellTyped, ApplyPatch, McpFlag;
    hide ActivePatch, ConcludeActivation, Presence, PlanActivation;
    var chosen := ReachesEndpoint(args, raw, live, input, None);
    var raw', live' := Persisted(raw, first.patch), Applied(live, first.patch);
    if args.schema.compatible(raw') {
      ReadoptAt(args, raw, live, input, chosen, raw', live');
    }
  }

  lemma ReadoptAt(args: Args, raw: Json, live: Live, input: Input, chosen: Chosen, raw': Json, live': Live)
    requires chosen == FreshProfiles(args, raw, live, input) && chosen.Chosen? && input.adoptIdentical
    requires ProfileOf(chosen.supervisor, Supervisor) && ProfileOf(chosen.lead, Lead) && ExtractProjection(args.schema, raw, OWNED).Some?
    requires AtEndpoint(args, raw, live, input, chosen, raw', live') && args.schema.compatible(raw')
    ensures NothingToPatch(PlanActivation(args, raw', live', input, None), ActiveProjection(args, raw, input, chosen))
  {
    hide OWNED, DesiredEntries, Agrees, ExtractProjection, UnrelatedView, DiskMatches, ProfileOf, ApplyOwnedSlots, HasLegacyPeer, ProfilesArray;
    hide ComputeSlots, Shaped, EnabledBase, McpFlag, Presence, FreshProfiles, SlotsOf, Strip, HasDependents;
    EndpointProviders(args.schema, raw', ActiveProjection(args, raw, input, chosen),
                      ProfilesHash(true, ActivePatch(args, raw, input, chosen).profiles), UnrelatedView(raw, OWNED));
    PatchedSlots(args, raw, input, chosen);
    ProfileIds(chosen);
    PlacesAreFound(ProfilesArray(raw'), ProfilesArray(raw), chosen.supervisor, chosen.lead);
    hide WithId;
    AdoptAgain(args, raw, live, input, chosen, raw', live');
    var before := SnapshotFrom(args.schema, raw', live').value;
    NothingLeftToDo(args, raw, live, input, chosen, raw', live', None, before, FreshProfiles(args, raw', live', input));
  }

  // --- a preference that the second activation refuses

  /** An empty document, live and enabled. */
  const EMPTY_DOCUMENT := Obj(map[])
  const ENABLED := Live(true, false, map[], false, [], [])

  /** Codex alone is installed; every shaped document is compatible. */
  function OnlyCodex(): Args {
    Args(Schema((j: Json) => true, (j: Json) => Shaped(j)), {Codex}, (id: Name) => EMPTY_DOCUMENT, None,
         (role: RoleName) => Texts(Other(0), Other(1)))
  }

  /** Prefer an uninstalled family for the supervisor profile. */
  function PreferDevin(): Input {
    Input(false, None, NO_PREFS.(family := Some(Devin)), NO_PREFS)
  }

  lemma EmptyDocumentIsPlain()
    ensures Shaped(EMPTY_DOCUMENT) && ProfilesArray(EMPTY_DOCUMENT) == [] && SlotsOf([]) == []
    ensures forall id: Name :: Presence(EMPTY_DOCUMENT, id).None?
    ensures forall name: Name :: McpFlag(EMPTY_DOCUMENT, name).None?
  {
  }

  lemma PreferDevinIsChosen()
    ensures FreshProfiles(OnlyCodex(), EMPTY_DOCUMENT, ENABLED, PreferDevin()).Chosen?
  {
    EmptyDocumentIsPlain();
    hide Presence, ProfilesArray, DesiredProfile, OWNED;
    assert WithId([], SlpSupervisor) == [] && WithId([], SlpLead) == [];
  }

  lemma EmptySnapshot()
    ensures Agrees(EMPTY_DOCUMENT, ENABLED, false) && !HasLegacyPeer(EMPTY_DOCUMENT)
    ensures SnapshotFrom(OnlyCodex().schema, EMPTY_DOCUMENT, ENABLED).Some?
  {
    EmptyDocumentIsPlain();
    hide Presence, ProfilesArray, McpFlag, SlotsOf, OWNED, UnrelatedView, ValidProfile, Shaped;
  }

  lemma NothingRemoved(args: Args, input: Input)
    requires args.routing.None?
    ensures OWNED - DesiredEntries(args, input).Keys == {}
  {
    KeysOfDesired(args, input);
  }

  lemma PreferDevinIsPlanned()
    ensures PlanActivation(OnlyCodex(), EMPTY_DOCUMENT, ENABLED, PreferDevin(), None).Planned?
  {
    EmptyDocumentIsPlain();
    EmptySnapshot();
    PreferDevinIsChosen();
    NothingRemoved(OnlyCodex(), PreferDevin());
    hide Presence, ProfilesArray, McpFlag, FreshProfiles, DiskMatches, UnrelatedView, ComputeSlots, ApplyOwnedSlots;
    hide Shaped, SlotsOf, OWNED, DesiredEntries;
    hide SnapshotFrom, Agrees, HasLegacyPeer, HasDependents, PreferDevin, ActiveProjection;
  }

  /** A fresh activation without a routing accepts a preference for a family that has
      no binary, and the same request then conflicts with its own result. */
  lemma UnavailablePreferenceDrifts(first: Plan)
    requires first == PlanActivation(OnlyCodex(), EMPTY_DOCUMENT, ENABLED, PreferDevin(), None)
    ensures first.Planned? && !PreferencesAvailable(OnlyCodex(), PreferDevin())
    ensures var raw', live' := Persisted(EMPTY_DOCUMENT, first.patch), Applied(ENABLED, first.patch);
            PlanActivation(OnlyCodex(), raw', live', PreferDevin(), first.next) == Conflict(OwnershipDrift)
  {
    EmptyDocumentIsPlain();
    PreferDevinIsPlanned();
    assert WellTyped(OnlyCodex(), PreferDevin());
    hide PlanActivation, Shaped, PersistPatch, ProfilesArray, McpFlag, Presence, SlotsOf, WellTyped;
    if first.patch.Some? { PersistedIs(EMPTY_DOCUMENT, first.patch.value); }
    ReactivationIsAFixedPoint(OnlyCodex(), EMPTY_DOCUMENT, ENABLED, PreferDevin(), None, first);
  }

  // --- activation can be undone

  lemma SnapshotAtEndpoint(args: Args, raw: Json, input: Input, chosen: Chosen, raw': Json, live': Live)
    requires chosen.Chosen?
    requires DiskMatches(args.schema, raw', ActiveProjection(args, raw, input, chosen),
                         ProfilesHash(true, ActivePatch(args, raw, input, chosen).profiles), UnrelatedView(raw, OWNED))
    requires McpFlag(raw', InjectIntoAgents) == Some(Bool(true))
    ensures var active, before := ActiveProjection(args, raw, input, chosen), SnapshotFrom(args.schema, raw', live');
            && before.Some? && before.value.owned.profiles == active.profiles && InjectUnmoved(active, raw')
            && forall id <- active.providers.Keys :: active.providers[id] == Presence(raw', id)
  {
    hide UnrelatedView, OWNED, ComputeSlots, ApplyOwnedSlots, DesiredEntries, ProfilesArray, Presence, McpFlag, ExtractProjection;
    assert ActiveProjection(args, raw, input, chosen).providers.Keys == OWNED;
  }

  /** Right after an activation the binding can be deactivated, unless a foreign
      profile or metadata entry came to name an owned provider, or raw and live
      metadata disagree; and the foreign profiles come back as they were. */
  lemma ActivationCanBeUndone(args: Args, raw: Json, live: Live, input: Input, previous: Option<Binding>, first: Plan)
    requires WellTyped(args, input) && first == PlanActivation(args, raw, live, input, previous) && first.Planned?
    ensures raw.Obj? && first.next.Some?
    ensures var raw', live' := Persisted(raw, first.patch), Applied(live, first.patch);
            args.schema.compatible(raw') && MetadataProviders(raw') == live'.metadata && !HasDependents(raw', OWNED) ==>
              var undo := PlanDeactivation(args.schema, raw', live', first.next.value);
              undo.Planned? && undo.patch.Some? && undo.patch.value.profiles == Strip(ProfilesArray(raw))
              && undo.patch.value.removeProviders == OWNED && undo.patch.value.inject == first.next.value.injectBefore
  {
    hide PersistPatch, OWNED, DesiredEntries, ExtractProjection, UnrelatedView, ProfileOf, ApplyOwnedSlots;
    hide HasLegacyPeer, ProfilesArray, ComputeSlots, Shaped, EnabledBase, WellTyped, ApplyPatch, McpFlag, Strip, SlotsOf;
    hide ConcludeActivation, Presence, PlanActivation, MetadataProviders, HasDependents, FreshProfiles, RebindProfiles, DiskMatches, Agrees;
    var chosen := ReachesEndpoint(args, raw, live, input, previous);
    var raw', live' := Persisted(raw, first.patch), Applied(live, first.patch);
    if args.schema.compatible(raw') && MetadataProviders(raw') == live'.metadata && !HasDependents(raw', OWNED) {
      UndoAt(args, raw, live, input, chosen, raw', live', first.next.value);
    }
  }

  lemma AgreesWithMetadata(raw: Json, live: Live)
    requires Agrees(raw, live, false) && MetadataProviders(raw) == live.metadata
    ensures Agrees(raw, live, true)
  {
    hide OWNED;
  }

  lemma UndoAt(args: Args, raw: Json, live: Live, input: Input, chosen: Chosen, raw': Json, live': Live, binding: Binding)
    requires chosen.Chosen? && ProfileOf(chosen.supervisor, Supervisor) && ProfileOf(chosen.lead, Lead)
    requires ExtractProjection(args.schema, raw, OWNED).Some? && binding.owned == ActiveProjection(args, raw, input, chosen)
    requires AtEndpoint(args, raw, live, input, chosen, raw', live') && args.schema.compatible(raw')
    requires MetadataProviders(raw') == live'.metadata && !HasDependents(raw', OWNED)
    ensures var undo := PlanDeactivation(args.schema, raw', live', binding);
            && undo.Planned? && undo.patch.Some?
            && undo.patch.value == Patch(map[], OWNED, Strip(ProfilesArray(raw)), binding.injectBefore)
  {
    hide OWNED, DesiredEntries, ExtractProjection, UnrelatedView, ProfileOf, ApplyOwnedSlots, HasLegacyPeer, ProfilesArray, DiskMatches;
    hide ComputeSlots, Shaped, EnabledBase, McpFlag, Strip, SlotsOf, Presence, MetadataProviders, HasDependents, Agrees, InjectUnmoved;
    PatchedSlots(args, raw, input, chosen);
    AgreesWithMetadata(raw', live');
    SnapshotAtEndpoint(args, raw, input, chosen, raw', live');
    TwoSlots(args, raw, input, chosen);
    assert binding.owned.providers.Keys == OWNED by { ActiveKeys(args, raw, input, chosen); }
    forall owned: Projection, all: ProfilesDigest, unrelated: Json | owned.profiles == []
      ensures !DiskMatches(args.schema, raw', owned, all, unrelated)
    {
      NotGone(args.schema, raw', owned, all, unrelated);
    }
  }

  lemma ActiveKeys(args: Args, raw: Json, input: Input, chosen: Chosen)
    requires chosen.Chosen?
    ensures ActiveProjection(args, raw, input, chosen).providers.Keys == OWNED
  {
    hide OWNED, DesiredEntries, ComputeSlots;
  }

  lemma TwoSlots(args: Args, raw: Json, input: Input, chosen: Chosen)
    requires chosen.Chosen?
    ensures |ActiveProjection(args, raw, input, chosen).profiles| == 2
  {
  }

  /** A document that still has owned profiles is not at a deactivated endpoint. */
  lemma NotGone(s: Schema, raw: Json, owned: Projection, all: ProfilesDigest, unrelated: Json)
    requires owned.profiles == [] && SlotsOf(ProfilesArray(raw)) != []
    ensures !DiskMatches(s, raw, owned, all, unrelated)
  {
    hide UnrelatedView, Presence, ProfilesArray, SlotsOf;
  }
}
