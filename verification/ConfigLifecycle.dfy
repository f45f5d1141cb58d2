/** Whole lifecycles: what deactivation restores, and what no patch strands. */
module ConfigLifecycle {
  import opened Options
  import opened ConfigDocument
  import opened ConfigSlots
  import opened ConfigEndpoint
  import opened ConfigPlan
  import opened ConfigRecovery

  function Persisted(raw: Json, patch: Option<Patch>): Json
    requires patch.Some? ==> raw.Obj?
  {
    if patch.Some? then PersistPatch(raw, patch.value) else raw
  }

  function Applied(live: Live, patch: Option<Patch>): Live {
    if patch.Some? then ApplyPatch(live, patch.value) else live
  }

  // ----------------------------------------------------------- restoration

  /** One activation or rebind, on whatever the configuration is by then. */
  datatype Step = Step(args: Args, raw: Json, live: Live, input: Input)

  /** The binding after a run of plans that all succeeded; the first of them is
      fresh unless a binding already exists. */
  function BindingAfter(start: Option<Binding>, steps: seq<Step>): Option<Binding> {
    if steps == [] then start
    else
      var before, last := BindingAfter(start, steps[..|steps| - 1]), steps[|steps| - 1];
      if |steps| > 1 && before.None? then None
      else
        var plan := PlanActivation(last.args, last.raw, last.live, last.input, before);
        if plan.Planned? then plan.next else None
  }

  lemma PlanCarriesInjection(args: Args, raw: Json, live: Live, input: Input, previous: Option<Binding>)
    ensures var plan := PlanActivation(args, raw, live, input, previous);
            plan.Planned? ==>
              && plan.next.Some? && plan.next.value.owned.providers.Keys == OWNED
              && plan.next.value.injectBefore == (if previous.Some? then previous.value.injectBefore else live.inject)
              && plan.next.value.owned == plan.endpoints.afterOwned
  {
    hide Agrees, HasLegacyPeer, SnapshotFrom, RebindProfiles, FreshProfiles, DiskMatches, HasDependents, OWNED, ActivePatch;
  }

  /** However often it is rebound, and whatever else is edited in between, a binding
      remembers the injection value in force before the first activation. */
  lemma {:induction false} InjectionIsRemembered(start: Option<Binding>, steps: seq<Step>)
    requires steps != [] && BindingAfter(start, steps).Some?
    ensures BindingAfter(start, steps).value.injectBefore == (if start.Some? then start.value.injectBefore else steps[0].live.inject)
    ensures BindingAfter(start, steps).value.owned.providers.Keys == OWNED
    decreases |steps|
  {
    hide PlanActivation, OWNED;
    var before, last := steps[..|steps| - 1], steps[|steps| - 1];
    if before != [] { InjectionIsRemembered(start, before); }
    PlanCarriesInjection(last.args, last.raw, last.live, last.input, BindingAfter(start, before));
  }

  lemma {:induction false} StripKeepsForeign(entries: seq<Json>)
    ensures forall e <- Strip(entries) :: e in entries && !IsOwnedProfile(e)
  {
    if entries != [] { StripKeepsForeign(entries[..|entries| - 1]); }
  }

  /** What a deactivation plan says, opened up. */
  lemma DeactivationMeans(s: Schema, raw: Json, live: Live, binding: Binding)
    requires PlanDeactivation(s, raw, live, binding).Planned?
    ensures var plan := PlanDeactivation(s, raw, live, binding);
            var ids := binding.owned.providers.Keys;
            && s.compatible(raw) && Agrees(raw, live, true) && !HasDependents(raw, ids)
            && (plan.patch.Some? ==> plan.patch.value == Patch(map[], ids, Strip(ProfilesArray(raw)), binding.injectBefore))
            && (plan.patch.None? ==>
                  && live.inject == binding.injectBefore
                  && DiskMatches(s, raw, plan.endpoints.afterOwned, plan.endpoints.afterAllProfiles, plan.endpoints.before.unrelated))
            && plan.endpoints.afterOwned.providers.Keys == OWNED && plan.endpoints.afterOwned.profiles == []
            && plan.endpoints.afterOwned.inject == Some(binding.injectBefore)
            && (forall id <- OWNED :: id in ids ==> plan.endpoints.afterOwned.providers[id].None?)
  {
    hide Agrees, SnapshotFrom, DiskMatches, HasDependents, OWNED, Strip, ProfilesArray, InjectUnmoved;
  }

  /** Deactivation: the injection flag is back at the remembered value, exactly the
      providers of the binding's own vocabulary are gone, both owned profiles are
      gone, and every other provider and profile is as it was. */
  lemma DeactivationRestores(s: Schema, raw: Json, live: Live, binding: Binding, v: Vocabulary)
    requires Pinned(s) && PlanDeactivation(s, raw, live, binding).Planned? && binding.owned.providers.Keys == IdsOf(v)
    ensures raw.Obj?
    ensures var patch := PlanDeactivation(s, raw, live, binding).patch;
            var raw', live' := Persisted(raw, patch), Applied(live, patch);
            && live'.inject == binding.injectBefore
            && (McpFlag(raw', InjectIntoAgents) == Some(Bool(true))) == binding.injectBefore
            && ProvidersRecord(raw') == ProvidersRecord(raw) - IdsOf(v) && live'.providers == live.providers - IdsOf(v)
            && ProfilesArray(raw') == live'.profiles == Strip(ProfilesArray(raw)) && SlotsOf(ProfilesArray(raw')) == []
            && UnrelatedView(raw', OWNED) == UnrelatedView(raw, OWNED)
  {
    hide PlanDeactivation, UnrelatedView, Strip, SlotsOf, PersistPatch, IdsOf, OWNED, Pinned, HasDependents, DiskMatches, Agrees;
    DeactivationMeans(s, raw, live, binding);
    assert Shaped(raw) by { ShapedBySchema(s, raw); }
    hide Shaped;
    ShapedIsObj(raw);
    OwnedIds(v);
    StripIsForeign(ProfilesArray(raw));
    ForeignStays(Strip(ProfilesArray(raw)));
    var plan := PlanDeactivation(s, raw, live, binding);
    if plan.patch.Some? {
      PersistedIs(raw, plan.patch.value);
      NothingToAdd(ProvidersRecord(raw), IdsOf(v));
      NothingToAdd(live.providers, IdsOf(v));
      PatchLeavesTheRest(raw, plan.patch.value, OWNED);
    } else {
      AlreadyGone(s, raw, live, plan.endpoints, binding.injectBefore, IdsOf(v));
    }
  }

  lemma NothingToAdd(providers: map<Name, Json>, ids: set<Name>)
    ensures (providers + map[]) - ids == providers - ids
  {
    assert providers + map[] == providers;
  }

  lemma ShapedBySchema(s: Schema, raw: Json)
    requires Pinned(s) && s.compatible(raw)
    ensures Shaped(raw)
  {
  }

  lemma AlreadyGone(s: Schema, raw: Json, live: Live, plan: Endpoints, restore: bool, ids: set<Name>)
    requires Agrees(raw, live, true) && ids <= OWNED && live.inject == restore
    requires DiskMatches(s, raw, plan.afterOwned, plan.afterAllProfiles, plan.before.unrelated)
    requires plan.afterOwned.providers.Keys == OWNED && plan.afterOwned.profiles == [] && plan.afterOwned.inject == Some(restore)
    requires forall id <- OWNED :: id in ids ==> plan.afterOwned.providers[id].None?
    ensures ProvidersRecord(raw) == ProvidersRecord(raw) - ids && live.providers == live.providers - ids
    ensures ProfilesArray(raw) == live.profiles == Strip(ProfilesArray(raw)) && SlotsOf(ProfilesArray(raw)) == []
    ensures (McpFlag(raw, InjectIntoAgents) == Some(Bool(true))) == restore
  {
    hide UnrelatedView, OWNED, ValidProfile, ProfilesMatch, WrittenFieldsEqual;
    forall id <- ids
      ensures Presence(raw, id).None? && id !in live.providers
    {
    }
    assert SlotsOf(ProfilesArray(raw)) == [];
    hide ProvidersRecord, ProfilesArray, SlotsOf;
    SlotsAreThere(ProfilesArray(raw));
    forall i | 0 <= i < |ProfilesArray(raw)|
      ensures !IsOwnedProfile(ProfilesArray(raw)[i])
    {
      assert !SlotAt(ProfilesArray(raw), Slot(i, ProfilesArray(raw)[i]));
    }
    ForeignStays(ProfilesArray(raw));
  }

  /** Activation, any number of rebinds, deactivation, with arbitrary edits by others
      in between: injection ends at its effective value before the first activation,
      and everything that was ever owned is gone. */
  lemma LifecycleRestores(steps: seq<Step>, s: Schema, raw: Json, live: Live, binding: Binding)
    requires steps != [] && BindingAfter(None, steps) == Some(binding)
    requires Pinned(s) && PlanDeactivation(s, raw, live, binding).Planned?
    ensures raw.Obj?
    ensures var patch := PlanDeactivation(s, raw, live, binding).patch;
            var raw', live' := Persisted(raw, patch), Applied(live, patch);
            && live'.inject == steps[0].live.inject
            && (McpFlag(raw', InjectIntoAgents) == Some(Bool(true))) == steps[0].live.inject
            && (forall id <- OWNED :: Presence(raw', id).None? && id !in live'.providers)
            && SlotsOf(ProfilesArray(raw')) == [] && ProfilesArray(raw') == Strip(ProfilesArray(raw))
            && UnrelatedView(raw', OWNED) == UnrelatedView(raw, OWNED)
  {
    hide PlanDeactivation, UnrelatedView, Strip, SlotsOf, PersistPatch, Pinned, BindingAfter, ProfilesArray, ProvidersRecord, McpFlag;
    InjectionIsRemembered(None, steps);
    assert OWNED == IdsOf(Current18);
    hide OWNED, IdsOf;
    DeactivationRestores(s, raw, live, binding, Current18);
  }

  // ---------------------------------------------------------- nothing strands

  /** A profile or a metadata entry of the document names a provider of this set. */
  predicate Strands(raw: Json, ids: set<Name>) {
    || (exists entry <- ProfilesArray(raw) :: ProviderOf(entry).Some? && ProviderOf(entry).value in ids)
    || (exists entry <- MetadataProviders(raw) :: ProviderOf(entry).Some? && ProviderOf(entry).value in ids)
  }

  lemma EditFieldsKeepProvider(fields: map<Name, Json>, prefs: Prefs)
    ensures Field(Some(Obj(EditFields(fields, prefs))), Provider) == Field(Some(Obj(fields)), Provider)
  {
  }

  lemma PrefsProvider(fields: map<Name, Json>, prefs: Prefs, role: RoleName)
    ensures ProviderOf(Obj(ApplyPrefs(fields, prefs, role))) ==
            if prefs.family.Some? then Some(OwnedProvider(prefs.family.value, role)) else ProviderOf(Obj(fields))
  {
    hide EditFields;
    EditFieldsKeepProvider(fields, prefs);
    if prefs.family.Some? { EditFieldsKeepProvider(Repoint(fields, prefs.family.value, role, !prefs.thinking.Keep?), prefs); }
  }

  /** The provider of an edited profile: explicit preference, then routing, then as it was. */
  lemma EditedProvider(fields: map<Name, Json>, prefs: Prefs, choice: Option<Choice>, role: RoleName)
    ensures ProviderOf(Obj(RebindEdits(fields, prefs, choice, role))) ==
            if choice.Some? then Some(OwnedProvider(FamilyFor(prefs, choice.value), role))
            else if prefs.family.Some? then Some(OwnedProvider(prefs.family.value, role))
            else ProviderOf(Obj(fields))
  {
    hide ApplyPrefs, ApplyRouting, ProviderOf;
    if choice.Some? {
      RoutingIsAnEdit(fields, choice.value, role);
      PrefsProvider(fields, AsPrefs(choice.value), role);
      PrefsProvider(ApplyRouting(fields, choice.value, role), prefs, role);
    } else {
      PrefsProvider(fields, prefs, role);
    }
  }

  /** How a profile was chosen: an edit of a base whose own provider, if the edit
      leaves it, belongs to an available family. */
  ghost predicate ChosenFrom(args: Args, fields: map<Name, Json>, chosen: Json, prefs: Prefs, role: RoleName) {
    && chosen == Obj(RebindEdits(fields, prefs, ChoiceOf(args.routing, role), role))
    && (args.routing.None? ==>
          var p := ProviderOf(Obj(fields));
          p.Some? && p.value.OwnedProvider? && p.value.role == role && p.value.family in args.available)
  }

  lemma BaseProviderIs(role: RoleName, family: Family, texts: Texts)
    ensures ProviderOf(Obj(ProfileBase(role, family, texts))) == Some(OwnedProvider(family, role))
  {
  }

  lemma FirstFamilyIsWanted(families: seq<Family>, wanted: Family -> bool)
    ensures FirstFamily(families, wanted).Some? ==> wanted(FirstFamily(families, wanted).value)
  {
  }

  lemma SelectedIsAvailable(args: Args, live: Live, requested: Option<Family>)
    ensures SelectFamily(args, live, requested).Some? ==> SelectFamily(args, live, requested).value in args.available
  {
    FirstFamilyIsWanted(REGISTRY, (f: Family) => f in args.available && EnabledBase(live, f));
    FirstFamilyIsWanted(REGISTRY, (f: Family) => f in args.available);
  }

  /** Where both planning paths take their profiles from. */
  lemma Origins(args: Args, raw: Json, live: Live, input: Input, previous: Option<Binding>)
    returns (supervisor: map<Name, Json>, lead: map<Name, Json>)
    ensures var chosen := if previous.Some? then RebindProfiles(args, raw, input, previous.value) else FreshProfiles(args, raw, live, input);
            chosen.Chosen? ==>
              && ChosenFrom(args, supervisor, chosen.supervisor, input.supervisor, Supervisor)
              && ChosenFrom(args, lead, chosen.lead, input.lead, Lead)
              && RoutingAvailable(args, input)
              && (previous.Some? ==> FamilyAllowed(args, input.supervisor) && FamilyAllowed(args, input.lead))
  {
    hide RebindEdits, DesiredProfile, DesiredEntries, OWNED, Adoptable, ProfileBase, Presence, InjectUnmoved, SelectFamily, LiveProfile;
    if previous.Some? {
      supervisor, lead := LiveProfile(raw, Supervisor), LiveProfile(raw, Lead);
      LiveIsFound(args, raw, Supervisor);
      LiveIsFound(args, raw, Lead);
      hide ValidUnderBinding;
    } else {
      SelectedIsAvailable(args, live, input.initialFamily);
      var family := if args.routing.Some? then Some(args.routing.value.supervisor.family) else SelectFamily(args, live, input.initialFamily);
      supervisor, lead := map[], map[];
      if family.Some? {
        supervisor := ProfileBase(Supervisor, family.value, args.texts(Supervisor));
        lead := ProfileBase(Lead, family.value, args.texts(Lead));
        FreshIsEdited(Supervisor, family.value, input.supervisor, ChoiceOf(args.routing, Supervisor), args.texts(Supervisor));
        FreshIsEdited(Lead, family.value, input.lead, ChoiceOf(args.routing, Lead), args.texts(Lead));
        BaseProviderIs(Supervisor, family.value, args.texts(Supervisor));
        BaseProviderIs(Lead, family.value, args.texts(Lead));
      }
    }
  }

  lemma LiveIsFound(args: Args, raw: Json, role: RoleName)
    requires role != Peer
    ensures ValidUnderBinding(args, raw, role) ==>
              var p := ProviderOf(Obj(LiveProfile(raw, role)));
              p.Some? && p.value.OwnedProvider? && p.value.role == role && p.value.family in args.available
  {
  }

  /** What an activation plan says, opened up. */
  lemma ActivationMeans(args: Args, raw: Json, live: Live, input: Input, previous: Option<Binding>) returns (chosen: Chosen)
    requires PlanActivation(args, raw, live, input, previous).Planned?
    ensures chosen == (if previous.Some? then RebindProfiles(args, raw, input, previous.value) else FreshProfiles(args, raw, live, input))
    ensures chosen.Chosen? && live.enabled && args.schema.compatible(raw) && Agrees(raw, live, false) && !HasLegacyPeer(raw)
    ensures ExtractProjection(args.schema, raw, OWNED).Some?
    ensures var plan := PlanActivation(args, raw, live, input, previous);
            && plan.endpoints.afterOwned == ActiveProjection(args, raw, input, chosen)
            && plan.endpoints.afterAllProfiles == ProfilesHash(true, ActivePatch(args, raw, input, chosen).profiles)
            && plan.endpoints.before.unrelated == UnrelatedView(raw, OWNED)
            && plan.next.Some? && plan.next.value.owned == plan.endpoints.afterOwned
            && (plan.patch.Some? ==>
                  && plan.patch.value == ActivePatch(args, raw, input, chosen)
                  && (plan.patch.value.removeProviders != {} ==> !HasDependents(raw, plan.patch.value.removeProviders)))
            && (plan.patch.None? ==>
                  && live.inject
                  && DiskMatches(args.schema, raw, plan.endpoints.afterOwned, plan.endpoints.afterAllProfiles, UnrelatedView(raw, OWNED)))
  {
    hide Agrees, HasLegacyPeer, RebindProfiles, FreshProfiles, DiskMatches, HasDependents, OWNED, ActiveProjection, ActivePatch;
    hide UnrelatedView, ExtractProjection;
    chosen := if previous.Some? then RebindProfiles(args, raw, input, previous.value) else FreshProfiles(args, raw, live, input);
  }

  /** A chosen profile names a provider that the same plan generates. */
  lemma ChosenIsGenerated(args: Args, input: Input, fields: map<Name, Json>, chosen: Json, role: RoleName)
    requires role != Peer && ChosenFrom(args, fields, chosen, PrefsOf(input, role), role)
    ensures ProviderOf(chosen).Some? && ProviderOf(chosen).value in DesiredIds(args.routing, input)
  {
    EditedProvider(fields, PrefsOf(input, role), ChoiceOf(args.routing, role), role);
    OwnedIds(Current18);
    hide OWNED, RebindEdits;
  }

  lemma PatchedSlots(args: Args, raw: Json, input: Input, chosen: Chosen)
    requires ExtractProjection(args.schema, raw, OWNED).Some?
    requires chosen.Chosen? && ProfileOf(chosen.supervisor, Supervisor) && ProfileOf(chosen.lead, Lead)
    ensures var p := ActivePatch(args, raw, input, chosen);
            && SlotsOf(p.profiles) == ComputeSlots(ProfilesArray(raw), chosen.supervisor, chosen.lead)
            && Strip(p.profiles) == Strip(ProfilesArray(raw))
  {
    var entries := ProfilesArray(raw);
    assert DistinctIds(SlotsOf(entries));
    hide ExtractProjection, ComputeSlots, SlotsOf, Strip, SpliceAll, SortSlots, OWNED, ValidProfile, ProfilesArray, DesiredEntries, Placed, Foreign;
    hide ApplyOwnedSlots, ProfileOf, DistinctIds;
    ChosenArePlaced(entries, chosen.supervisor, chosen.lead);
    StripIsForeign(entries);
    SlotsLandInPlace(Strip(entries), ComputeSlots(entries, chosen.supervisor, chosen.lead));
  }

  /** Entries of a patched array: the chosen profiles and foreign ones of the old array. */
  lemma PatchedEntries(args: Args, raw: Json, input: Input, chosen: Chosen)
    requires ExtractProjection(args.schema, raw, OWNED).Some?
    requires chosen.Chosen? && ProfileOf(chosen.supervisor, Supervisor) && ProfileOf(chosen.lead, Lead)
    ensures forall e <- ActivePatch(args, raw, input, chosen).profiles ::
              e == chosen.supervisor || e == chosen.lead || (e in ProfilesArray(raw) && !IsOwnedProfile(e))
  {
    var entries := ProfilesArray(raw);
    var slots := ComputeSlots(entries, chosen.supervisor, chosen.lead);
    assert forall slot <- slots :: slot.value == chosen.supervisor || slot.value == chosen.lead;
    hide ExtractProjection, ComputeSlots, SlotsOf, Strip, OWNED, ProfilesArray, ActivePatch, ProfileOf;
    PatchedSlots(args, raw, input, chosen);
    StripKeepsForeign(entries);
    var profiles := ActivePatch(args, raw, input, chosen).profiles;
    forall e | e in profiles
      ensures e == chosen.supervisor || e == chosen.lead || (e in entries && !IsOwnedProfile(e))
    {
      var i :| 0 <= i < |profiles| && profiles[i] == e;
      SlotMeans(profiles, Slot(i, e));
      if !IsOwnedProfile(e) { ForeignAreKept(profiles, e); }
    }
  }

  lemma {:induction false} ForeignAreKept(entries: seq<Json>, e: Json)
    requires e in entries && !IsOwnedProfile(e)
    ensures e in Strip(entries)
  {
    var init, last := entries[..|entries| - 1], entries[|entries| - 1];
    assert entries == init + [last];
    if e != last { ForeignAreKept(init, e); }
  }

  /** No activation or rebind patch strands a reference: after it no profile, the
      plugin's own included, and no metadata entry names a provider it removed. */
  lemma ActivationStrandsNothing(args: Args, raw: Json, live: Live, input: Input, previous: Option<Binding>)
    requires WellTyped(args, input)
    requires var plan := PlanActivation(args, raw, live, input, previous); plan.Planned? && plan.patch.Some?
    ensures raw.Obj?
    ensures var p := PlanActivation(args, raw, live, input, previous).patch.value;
            !Strands(PersistPatch(raw, p), p.removeProviders)
  {
    hide PlanActivation, PersistPatch, OWNED, DesiredEntries, Agrees, ExtractProjection, UnrelatedView, DiskMatches, ProfileOf, ApplyOwnedSlots;
    hide ActiveProjection, RebindProfiles, FreshProfiles, HasLegacyPeer, ChosenFrom, ProviderOf, MetadataProviders, ProfilesArray, ComputeSlots;
    var chosen := ActivationMeans(args, raw, live, input, previous);
    ShapedBySchema(args.schema, raw);
    ShapedIsObj(raw);
    ChosenAreProfiles(args, raw, live, input, previous);
    var supervisor, lead := Origins(args, raw, live, input, previous);
    ChosenIsGenerated(args, input, supervisor, chosen.supervisor, Supervisor);
    ChosenIsGenerated(args, input, lead, chosen.lead, Lead);
    PatchedEntries(args, raw, input, chosen);
    var p := PlanActivation(args, raw, live, input, previous).patch.value;
    PersistedIs(raw, p);
    assert DesiredEntries(args, input).Keys == DesiredIds(args.routing, input) by { KeysOfDesired(args, input); }
  }

  lemma KeysOfDesired(args: Args, input: Input)
    ensures DesiredEntries(args, input).Keys == DesiredIds(args.routing, input)
  {
  }

  /** Nor does a deactivation patch. */
  lemma DeactivationStrandsNothing(s: Schema, raw: Json, live: Live, binding: Binding)
    requires Pinned(s)
    requires var plan := PlanDeactivation(s, raw, live, binding); plan.Planned? && plan.patch.Some?
    ensures raw.Obj?
    ensures var p := PlanDeactivation(s, raw, live, binding).patch.value;
            !Strands(PersistPatch(raw, p), p.removeProviders)
  {
    hide PlanDeactivation, PersistPatch, OWNED, Agrees, DiskMatches, ProviderOf, MetadataProviders, ProfilesArray, Pinned;
    DeactivationMeans(s, raw, live, binding);
    ShapedBySchema(s, raw);
    ShapedIsObj(raw);
    StripKeepsForeign(ProfilesArray(raw));
    PersistedIs(raw, PlanDeactivation(s, raw, live, binding).patch.value);
  }
}
