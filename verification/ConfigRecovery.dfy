/** Forward and inverse recovery of every plan. */
module ConfigRecovery {
  import opened Options
  import opened ConfigDocument
  import opened ConfigSlots
  import opened ConfigEndpoint
  import opened ConfigPlan

  /** The pinned schema accepts only documents whose containers have their shapes. */
  ghost predicate Pinned(s: Schema) {
    forall raw: Json :: s.compatible(raw) ==> Shaped(raw)
  }

  predicate ValidEdit(e: Edit) { e.Put? ==> e.value.Str? }

  predicate ValidPrefs(p: Prefs) {
    ValidEdit(p.model) && ValidEdit(p.modeId) && ValidEdit(p.thinking) && (p.features.Put? ==> p.features.value.Obj?)
  }

  predicate ValidChoice(c: Choice) {
    && (c.model.Some? ==> c.model.value.Str?) && (c.modeId.Some? ==> c.modeId.value.Str?)
    && (c.thinking.Some? ==> c.thinking.value.Str?) && (c.features.Some? ==> c.features.value.Obj?)
  }

  /** Requests and stored routings are of their schemas, and generated entries of theirs. */
  ghost predicate WellTyped(args: Args, input: Input) {
    && Pinned(args.schema)
    && ValidPrefs(input.supervisor) && ValidPrefs(input.lead)
    && (args.routing.Some? ==> ValidChoice(args.routing.value.supervisor) && ValidChoice(args.routing.value.lead))
    && (forall id: Name :: args.schema.provider(args.entry(id)))
  }

  predicate ProfileOf(j: Json, role: RoleName) {
    ValidProfile(j) && IdOf(j) == Some(ProfileId(role))
  }

  lemma EditsKeepProfile(fields: map<Name, Json>, prefs: Prefs, role: RoleName)
    requires ProfileOf(Obj(fields), role) && ValidPrefs(prefs)
    ensures ProfileOf(Obj(EditFields(fields, prefs)), role)
    ensures ProfileOf(Obj(ApplyPrefs(fields, prefs, role)), role)
  {
    hide ProfileOf, Repoint, EditFields;
    EditFieldsKeep(fields, prefs, role);
    if prefs.family.Some? {
      var repointed := Repoint(fields, prefs.family.value, role, !prefs.thinking.Keep?);
      RepointKeeps(fields, prefs.family.value, role, !prefs.thinking.Keep?);
      EditFieldsKeep(repointed, prefs, role);
    }
  }

  lemma RepointKeeps(fields: map<Name, Json>, family: Family, role: RoleName, asked: bool)
    requires ProfileOf(Obj(fields), role)
    ensures ProfileOf(Obj(Repoint(fields, family, role, asked)), role)
  {
  }

  /** Setting or clearing an optional text keeps a profile valid. */
  lemma EditedKeeps(fields: map<Name, Json>, name: Name, e: Edit, role: RoleName)
    requires ProfileOf(Obj(fields), role) && name in {Model, ModeId, ThinkingOptionId, FeatureValues}
    requires if name.FeatureValues? then (e.Put? ==> e.value.Obj?) else ValidEdit(e)
    ensures ProfileOf(Obj(Edited(fields, name, e)), role)
  {
  }

  lemma EditFieldsKeep(fields: map<Name, Json>, prefs: Prefs, role: RoleName)
    requires ProfileOf(Obj(fields), role) && ValidPrefs(prefs)
    ensures ProfileOf(Obj(EditFields(fields, prefs)), role)
  {
    hide ProfileOf;
    var f1 := Edited(fields, Model, prefs.model);
    EditedKeeps(fields, Model, prefs.model, role);
    var f2 := Edited(f1, ModeId, prefs.modeId);
    EditedKeeps(f1, ModeId, prefs.modeId, role);
    var f3 := Edited(f2, ThinkingOptionId, prefs.thinking);
    EditedKeeps(f2, ThinkingOptionId, prefs.thinking, role);
    EditedKeeps(f3, FeatureValues, prefs.features, role);
  }

  function AsEdit(v: Option<Json>): Edit {
    if v.Some? then Put(v.value) else Keep
  }

  /** What a routing supplies is an edit that clears nothing. */
  function AsPrefs(c: Choice): Prefs {
    Prefs(Some(c.family), AsEdit(c.model), AsEdit(c.modeId), AsEdit(c.thinking), AsEdit(c.features))
  }

  lemma RoutingIsAnEdit(fields: map<Name, Json>, c: Choice, role: RoleName)
    ensures ApplyRouting(fields, c, role) == ApplyPrefs(fields, AsPrefs(c), role)
    ensures SupplyFields(fields, c) == EditFields(fields, AsPrefs(c))
    ensures ValidChoice(c) ==> ValidPrefs(AsPrefs(c))
  {
    SupplyIsEdit(fields, c);
    hide Repoint, SupplyFields, EditFields;
    SupplyIsEdit(Repoint(fields, c.family, role, c.thinking.Some?), c);
  }

  lemma SupplyIsEdit(fields: map<Name, Json>, c: Choice)
    ensures SupplyFields(fields, c) == EditFields(fields, AsPrefs(c))
  {
  }

  /** Rebind edits keep a valid profile of its role. */
  lemma RebindKeepsProfile(fields: map<Name, Json>, prefs: Prefs, choice: Option<Choice>, role: RoleName)
    requires ProfileOf(Obj(fields), role) && ValidPrefs(prefs) && (choice.Some? ==> ValidChoice(choice.value))
    ensures ProfileOf(Obj(RebindEdits(fields, prefs, choice, role)), role)
  {
    hide ProfileOf, ApplyPrefs, ApplyRouting;
    if choice.Some? {
      RoutingIsAnEdit(fields, choice.value, role);
      EditsKeepProfile(fields, AsPrefs(choice.value), role);
      EditsKeepProfile(ApplyRouting(fields, choice.value, role), prefs, role);
    } else {
      EditsKeepProfile(fields, prefs, role);
    }
  }

  /** The fresh profile is the rebind edit of the bare one: the two paths agree. */
  lemma FreshIsEdited(role: RoleName, family: Family, prefs: Prefs, choice: Option<Choice>, texts: Texts)
    ensures DesiredProfile(role, family, prefs, choice, texts) == RebindEdits(ProfileBase(role, family, texts), prefs, choice, role)
  {
    var base := ProfileBase(role, family, texts);
    if choice.Some? {
      var c := choice.value;
      var routed := ProfileBase(role, c.family, texts);
      assert Repoint(base, c.family, role, c.thinking.Some?) == routed;
      if prefs.family.Some? {
        SupplyCommutes(routed, c, Str(OwnedProvider(prefs.family.value, role)));
        assert routed[Provider := Str(OwnedProvider(prefs.family.value, role))] == ProfileBase(role, prefs.family.value, texts);
      }
      hide EditFields, SupplyFields, ProfileBase;
    } else if prefs.family.Some? {
      var named := ProfileBase(role, prefs.family.value, texts);
      assert base[Provider := Str(OwnedProvider(prefs.family.value, role))] == named;
      assert named - {ThinkingOptionId} == named;
      hide EditFields;
    }
  }

  /** The provider is none of the fields a routing supplies. */
  lemma SupplyCommutes(fields: map<Name, Json>, c: Choice, provider: Json)
    ensures SupplyFields(fields, c)[Provider := provider] == SupplyFields(fields[Provider := provider], c)
  {
  }

  lemma BaseIsProfile(role: RoleName, family: Family, texts: Texts)
    ensures ProfileOf(Obj(ProfileBase(role, family, texts)), role)
  {
  }

  lemma FreshIsProfile(role: RoleName, family: Family, prefs: Prefs, choice: Option<Choice>, texts: Texts)
    requires role != Peer && ValidPrefs(prefs) && (choice.Some? ==> ValidChoice(choice.value))
    ensures ProfileOf(Obj(DesiredProfile(role, family, prefs, choice, texts)), role)
  {
    hide ProfileOf, RebindEdits, DesiredProfile, ProfileBase;
    FreshIsEdited(role, family, prefs, choice, texts);
    BaseIsProfile(role, family, texts);
    RebindKeepsProfile(ProfileBase(role, family, texts), prefs, choice, role);
  }

  lemma {:induction false} WithIdMeans(entries: seq<Json>, id: Name)
    ensures forall e <- WithId(entries, id) :: e in entries && IdOf(e) == Some(id)
    ensures forall e <- entries :: IdOf(e) == Some(id) ==> e in WithId(entries, id)
  {
    if entries != [] {
      var init, last := entries[..|entries| - 1], entries[|entries| - 1];
      WithIdMeans(init, id);
      assert entries == init + [last];
    }
  }

  /** A live owned profile of a document that extracts is valid. */
  lemma LiveIsProfile(args: Args, raw: Json, role: RoleName)
    requires role != Peer && ValidUnderBinding(args, raw, role) && ExtractProjection(args.schema, raw, OWNED).Some?
    ensures ProfileOf(Obj(LiveProfile(raw, role)), role) && WithId(ProfilesArray(raw), ProfileId(role)) == [Obj(LiveProfile(raw, role))]
  {
    var entries := ProfilesArray(raw);
    var found := WithId(entries, ProfileId(role));
    WithIdMeans(entries, ProfileId(role));
    assert found[0] in found;
    var i :| 0 <= i < |entries| && entries[i] == found[0];
    SlotMeans(entries, Slot(i, found[0]));
    assert ValidProfile(Slot(i, found[0]).value);
  }

  /** Both planning paths choose valid profiles of their roles. */
  lemma ChosenAreProfiles(args: Args, raw: Json, live: Live, input: Input, previous: Option<Binding>)
    requires WellTyped(args, input) && ExtractProjection(args.schema, raw, OWNED).Some?
    ensures var chosen := if previous.Some? then RebindProfiles(args, raw, input, previous.value) else FreshProfiles(args, raw, live, input);
            chosen.Chosen? ==> ProfileOf(chosen.supervisor, Supervisor) && ProfileOf(chosen.lead, Lead)
  {
    hide ProfileOf, RebindEdits, DesiredProfile, DesiredEntries, OWNED, ExtractProjection, ValidUnderBinding, LiveProfile, Adoptable;
    if previous.Some? {
      if RebindProfiles(args, raw, input, previous.value).Chosen? {
        LiveIsProfile(args, raw, Supervisor);
        LiveIsProfile(args, raw, Lead);
        RebindKeepsProfile(LiveProfile(raw, Supervisor), input.supervisor, ChoiceOf(args.routing, Supervisor), Supervisor);
        RebindKeepsProfile(LiveProfile(raw, Lead), input.lead, ChoiceOf(args.routing, Lead), Lead);
      }
    } else {
      forall f: Family
        ensures ProfileOf(Obj(DesiredProfile(Supervisor, f, input.supervisor, ChoiceOf(args.routing, Supervisor),
                                             args.texts(Supervisor))), Supervisor)
        ensures ProfileOf(Obj(DesiredProfile(Lead, f, input.lead, ChoiceOf(args.routing, Lead), args.texts(Lead))), Lead)
      {
        FreshIsProfile(Supervisor, f, input.supervisor, ChoiceOf(args.routing, Supervisor), args.texts(Supervisor));
        FreshIsProfile(Lead, f, input.lead, ChoiceOf(args.routing, Lead), args.texts(Lead));
      }
    }
  }

  // -------------------------------------------------------- sound endpoints

  /** What an extracted projection records of its document. */
  lemma ExtractMeans(s: Schema, raw: Json, ids: set<Name>)
    requires ExtractProjection(s, raw, ids).Some?
    ensures var owned := ExtractProjection(s, raw, ids).value;
            && owned.providers.Keys == ids && (forall id <- ids :: owned.providers[id].Some? ==> s.provider(owned.providers[id].value))
            && owned.profiles == SlotsOf(ProfilesArray(raw)) && owned.profilesPresent == ProfilesPresent(raw)
            && DistinctIds(owned.profiles) && (forall slot <- owned.profiles :: ValidProfile(slot.value))
            && InjectOf(owned) == (McpFlag(raw, InjectIntoAgents) == Some(Bool(true)))
  {
    hide SlotsOf, ProfilesArray, ValidProfile, Presence, DistinctIds, McpFlag, ProfilesPresent;
  }

  lemma SnapshotIsSound(s: Schema, raw: Json, live: Live)
    requires Shaped(raw) && SnapshotFrom(s, raw, live).Some?
    ensures var before := SnapshotFrom(s, raw, live).value;
            && SoundEndpoint(s, Current18, before.owned, before.allProfiles, before.unrelated)
            && before.unrelated == UnrelatedView(raw, OWNED) && before.owned.profiles == SlotsOf(ProfilesArray(raw))
            && InjectOf(before.owned) == (McpFlag(raw, InjectIntoAgents) == Some(Bool(true)))
  {
    assert OWNED == IdsOf(Current18);
    hide UnrelatedView, SlotsOf, Strip, SpliceAll, SortSlots, OWNED, IdsOf, ValidProfile, Shaped, ProfilesArray, Placed;
    hide DistinctIds, McpFlag, ProfilesPresent, ExtractProjection, InjectOf;
    ExtractMeans(s, raw, OWNED);
    ViewKeepsForeignProfiles(raw, OWNED);
    WholeArray(ProfilesArray(raw));
    AbsentIsEmpty(raw);
    EmptyArray();
  }

  lemma AbsentIsEmpty(raw: Json)
    ensures !ProfilesPresent(raw) ==> ProfilesArray(raw) == []
  {
  }

  lemma WholeArray(entries: seq<Json>)
    ensures Placed(SlotsOf(entries), |Strip(entries)|) && SpliceAll(Strip(entries), SlotsOf(entries)) == entries
  {
    SlotsAreThere(entries);
    SlotsRestore(entries, entries);
    PlacedIsSorted(SlotsOf(entries), |Strip(entries)|);
  }

  lemma EmptyArray()
    ensures Strip([]) == [] && SlotsOf([]) == []
  {
  }

  /** The endpoint of an activation is sound over the document it was planned for. */
  lemma ActiveEndpointIsSound(args: Args, raw: Json, input: Input, chosen: Chosen)
    requires WellTyped(args, input) && Shaped(raw) && ExtractProjection(args.schema, raw, OWNED).Some?
    requires chosen.Chosen? && ProfileOf(chosen.supervisor, Supervisor) && ProfileOf(chosen.lead, Lead)
    ensures SoundEndpoint(args.schema, Current18, ActiveProjection(args, raw, input, chosen),
                          ProfilesHash(true, ActivePatch(args, raw, input, chosen).profiles), UnrelatedView(raw, OWNED))
  {
    assert OWNED == IdsOf(Current18);
    var entries := ProfilesArray(raw);
    hide UnrelatedView, SlotsOf, Strip, SpliceAll, SortSlots, OWNED, ValidProfile, Shaped, Pinned, Placed, DistinctIds, ComputeSlots, ProfilesArray;
    hide ApplyOwnedSlots, DesiredEntries, IsOwnedProfile;
    hide ExtractProjection;
    ExtractMeans(args.schema, raw, OWNED);
    assert DistinctIds(SlotsOf(entries));
    ViewKeepsForeignProfiles(raw, OWNED);
    ChosenArePlaced(entries, chosen.supervisor, chosen.lead);
    forall id | id in OWNED && id in DesiredEntries(args, input)
      ensures args.schema.provider(DesiredEntries(args, input)[id])
    {
      GeneratedIsValid(args, input, id);
    }
  }

  lemma GeneratedIsValid(args: Args, input: Input, id: Name)
    requires WellTyped(args, input) && id in DesiredEntries(args, input)
    ensures args.schema.provider(DesiredEntries(args, input)[id])
  {
    hide DesiredIds;
  }

  lemma ChosenArePlaced(entries: seq<Json>, supervisor: Json, lead: Json)
    requires ProfileOf(supervisor, Supervisor) && ProfileOf(lead, Lead) && DistinctIds(SlotsOf(entries))
    ensures var slots := ComputeSlots(entries, supervisor, lead);
            && Placed(slots, |Strip(entries)|) && DistinctIds(slots) && (forall slot <- slots :: ValidProfile(slot.value))
            && ApplyOwnedSlots(entries, slots) == SpliceAll(Strip(entries), slots)
  {
    var slots := ComputeSlots(entries, supervisor, lead);
    assert forall slot <- slots :: slot.value == supervisor || slot.value == lead;
    hide SlotsOf, Strip, SpliceAll, SortSlots, ValidProfile, ComputeSlots;
    ChosenSlotsArePlaced(entries, supervisor, lead);
    PlacedIsSorted(slots, |Strip(entries)|);
  }

  /** Both endpoints of a plan are sound, in one vocabulary, over one unrelated view. */
  ghost predicate SoundPlan(s: Schema, v: Vocabulary, plan: Endpoints) {
    && SoundEndpoint(s, v, plan.before.owned, plan.before.allProfiles, plan.before.unrelated)
    && SoundEndpoint(s, v, plan.afterOwned, plan.afterAllProfiles, plan.before.unrelated)
    && plan.before.injection == InjectOf(plan.before.owned)
  }

  lemma ActivationIsSound(args: Args, raw: Json, live: Live, input: Input, previous: Option<Binding>)
    requires WellTyped(args, input) && PlanActivation(args, raw, live, input, previous).Planned?
    ensures var e := PlanActivation(args, raw, live, input, previous).endpoints;
            && SoundPlan(args.schema, Current18, e) && Shaped(raw) && e.before.unrelated == UnrelatedView(raw, OWNED)
            && e.before.enabled == live.enabled && e.before.injection == live.inject && e.before.owned.profiles == SlotsOf(ProfilesArray(raw))
  {
    hide SoundEndpoint, UnrelatedView, ExtractProjection, RebindProfiles, FreshProfiles, DiskMatches, ActiveProjection, ActivePatch, Shaped;
    hide OWNED, HasLegacyPeer, HasDependents, ProfileOf, SlotsOf, ProfilesArray, McpFlag;
    SnapshotIsSound(args.schema, raw, live);
    ChosenAreProfiles(args, raw, live, input, previous);
    var chosen := if previous.Some? then RebindProfiles(args, raw, input, previous.value) else FreshProfiles(args, raw, live, input);
    ActiveEndpointIsSound(args, raw, input, chosen);
  }

  lemma DeactivatedEndpointIsSound(s: Schema, raw: Json, before: Snapshot, after: Projection, ids: set<Name>)
    requires Shaped(raw) && SoundEndpoint(s, Current18, before.owned, before.allProfiles, UnrelatedView(raw, OWNED))
    requires after.profilesPresent && after.profiles == [] && after.providers.Keys == OWNED
    requires forall id <- OWNED :: after.providers[id] == (if id in ids then None else before.owned.providers[id])
    ensures SoundEndpoint(s, Current18, after, ProfilesHash(true, Strip(ProfilesArray(raw))), UnrelatedView(raw, OWNED))
  {
    assert OWNED == IdsOf(Current18);
    ViewKeepsForeignProfiles(raw, OWNED);
    hide UnrelatedView, Strip, OWNED, Shaped;
  }

  lemma DeactivationIsSound(s: Schema, raw: Json, live: Live, binding: Binding)
    requires Pinned(s) && PlanDeactivation(s, raw, live, binding).Planned?
    ensures var e := PlanDeactivation(s, raw, live, binding).endpoints;
            && SoundPlan(s, Current18, e) && Shaped(raw) && e.before.unrelated == UnrelatedView(raw, OWNED)
            && e.before.enabled == live.enabled && e.before.injection == live.inject && e.before.owned.profiles == SlotsOf(ProfilesArray(raw))
  {
    hide SoundEndpoint, UnrelatedView, ExtractProjection, DiskMatches, Shaped, OWNED, HasDependents, SlotsOf, Strip, ProfilesArray, McpFlag;
    SnapshotIsSound(s, raw, live);
    var e := PlanDeactivation(s, raw, live, binding).endpoints;
    DeactivatedEndpointIsSound(s, raw, e.before, e.afterOwned, binding.owned.providers.Keys);
  }

  // ---------------------------------------------------------------- theorems

  /** Recovery in either direction, from any owned state that a crash can leave
      behind.  The forward patch classifies as after; the inverse patch as before, or
      as both endpoints at once when the plan changed nothing that is compared. */
  lemma RecoveryReaches(s: Schema, v: Vocabulary, plan: Endpoints, raw: Json, live: Live)
    requires SoundPlan(s, v, plan) && Shaped(raw) && UnrelatedView(raw, IdsOf(v)) == plan.before.unrelated && live.enabled == plan.before.enabled
    ensures var p := PatchForDirection(plan, Forward, raw);
            && Classify(s, PersistPatch(raw, p), ApplyPatch(live, p), plan).class_.After?
            && SlotsOf(p.profiles) == plan.afterOwned.profiles && Strip(p.profiles) == Strip(ProfilesArray(raw))
            && UnrelatedView(PersistPatch(raw, p), IdsOf(v)) == UnrelatedView(raw, IdsOf(v))
    ensures var p := PatchForDirection(plan, Inverse, raw);
            var c := Classify(s, PersistPatch(raw, p), ApplyPatch(live, p), plan);
            && (c.class_.Before? || (c.class_.After? && c.endpointsEqual))
            && SlotsOf(p.profiles) == plan.before.owned.profiles && Strip(p.profiles) == Strip(ProfilesArray(raw))
            && UnrelatedView(PersistPatch(raw, p), IdsOf(v)) == UnrelatedView(raw, IdsOf(v))
  {
    hide SoundEndpoint, UnrelatedView, DiskMatches, LiveMatches, PatchTo, PersistPatch, ApplyPatch, Shaped, SlotsOf, Strip, ProfilesArray, IdsOf;
    PatchReaches(s, v, plan.afterOwned, plan.afterAllProfiles, plan.before.unrelated, plan.before.enabled, raw, live);
    PatchReaches(s, v, plan.before.owned, plan.before.allProfiles, plan.before.unrelated, plan.before.enabled, raw, live);
    EndpointPatchLeavesTheRest(s, v, plan.afterOwned, plan.afterAllProfiles, plan.before.unrelated, raw);
    EndpointPatchLeavesTheRest(s, v, plan.before.owned, plan.before.allProfiles, plan.before.unrelated, raw);
  }

  lemma EndpointPatchLeavesTheRest(s: Schema, v: Vocabulary, owned: Projection, all: ProfilesDigest, unrelated: Json, raw: Json)
    requires SoundEndpoint(s, v, owned, all, unrelated) && Shaped(raw) && UnrelatedView(raw, IdsOf(v)) == unrelated
    ensures UnrelatedView(PersistPatch(raw, PatchTo(owned, InjectOf(owned), raw)), IdsOf(v)) == UnrelatedView(raw, IdsOf(v))
  {
    PatchedProfiles(s, v, owned, all, unrelated, raw);
    PatchLeavesTheRest(raw, PatchTo(owned, InjectOf(owned), raw), IdsOf(v));
  }

  /** An activation or rebind can be carried forward from its start, and taken back
      from its end. */
  lemma ActivationRecovers(args: Args, raw: Json, live: Live, input: Input, previous: Option<Binding>)
    requires WellTyped(args, input) && PlanActivation(args, raw, live, input, previous).Planned?
    ensures var plan := PlanActivation(args, raw, live, input, previous).endpoints;
            var p := PatchForDirection(plan, Forward, raw);
            var raw', live' := PersistPatch(raw, p), ApplyPatch(live, p);
            && Classify(args.schema, raw', live', plan).class_.After?
            && var q := PatchForDirection(plan, Inverse, raw');
               var c := Classify(args.schema, PersistPatch(raw', q), ApplyPatch(live', q), plan);
               && (c.class_.Before? || (c.class_.After? && c.endpointsEqual))
               && q.profiles == ProfilesArray(raw) && q.inject == live.inject
  {
    assert OWNED == IdsOf(Current18);
    hide UnrelatedView, Classify, PersistPatch, Shaped, SoundPlan, PlanActivation, SlotsOf, Strip, OWNED, WellTyped;
    ActivationIsSound(args, raw, live, input, previous);
    ThereAndBack(args.schema, Current18, PlanActivation(args, raw, live, input, previous).endpoints, raw, live);
  }

  lemma DeactivationRecovers(s: Schema, raw: Json, live: Live, binding: Binding)
    requires Pinned(s) && PlanDeactivation(s, raw, live, binding).Planned?
    ensures var plan := PlanDeactivation(s, raw, live, binding).endpoints;
            var p := PatchForDirection(plan, Forward, raw);
            var raw', live' := PersistPatch(raw, p), ApplyPatch(live, p);
            && Classify(s, raw', live', plan).class_.After?
            && var q := PatchForDirection(plan, Inverse, raw');
               var c := Classify(s, PersistPatch(raw', q), ApplyPatch(live', q), plan);
               && (c.class_.Before? || (c.class_.After? && c.endpointsEqual))
               && q.profiles == ProfilesArray(raw) && q.inject == live.inject
  {
    assert OWNED == IdsOf(Current18);
    hide UnrelatedView, Classify, PersistPatch, Shaped, SoundPlan, PlanDeactivation, SlotsOf, Strip, OWNED, Pinned;
    DeactivationIsSound(s, raw, live, binding);
    ThereAndBack(s, Current18, PlanDeactivation(s, raw, live, binding).endpoints, raw, live);
  }

  /** Forward from the planned document, then inverse from what that leaves. */
  lemma ThereAndBack(s: Schema, v: Vocabulary, plan: Endpoints, raw: Json, live: Live)
    requires SoundPlan(s, v, plan) && Shaped(raw) && UnrelatedView(raw, IdsOf(v)) == plan.before.unrelated && live.enabled == plan.before.enabled
    requires plan.before.owned.profiles == SlotsOf(ProfilesArray(raw)) && plan.before.injection == live.inject
    ensures var p := PatchForDirection(plan, Forward, raw);
            var raw', live' := PersistPatch(raw, p), ApplyPatch(live, p);
            && Classify(s, raw', live', plan).class_.After?
            && var q := PatchForDirection(plan, Inverse, raw');
               var c := Classify(s, PersistPatch(raw', q), ApplyPatch(live', q), plan);
               && (c.class_.Before? || (c.class_.After? && c.endpointsEqual))
               && q.profiles == ProfilesArray(raw) && q.inject == live.inject
  {
    hide UnrelatedView, Classify, PersistPatch, Shaped, SoundPlan, SlotsOf, Strip, IdsOf, ProfilesArray;
    ShapedIsObj(raw);
    var p := PatchForDirection(plan, Forward, raw);
    var raw', live' := PersistPatch(raw, p), ApplyPatch(live, p);
    RecoveryReaches(s, v, plan, raw, live);
    PersistedIs(raw, p);
    RecoveryReaches(s, v, plan, raw', live');
    var q := PatchForDirection(plan, Inverse, raw');
    StripAndSlotsDetermine(q.profiles, ProfilesArray(raw));
  }

  /** What a deactivation plan keeps and removes of the owned providers. */
  lemma DeactivatedProviders(s: Schema, raw: Json, live: Live, binding: Binding)
    requires PlanDeactivation(s, raw, live, binding).Planned?
    ensures var plan := PlanDeactivation(s, raw, live, binding);
            var ids, after := binding.owned.providers.Keys, plan.endpoints.afterOwned;
            && after.providers.Keys == OWNED && after.profiles == [] && after.inject == Some(binding.injectBefore)
            && (forall id <- OWNED :: after.providers[id] == if id in ids then None else Presence(raw, id))
            && Agrees(raw, live, true) && plan.endpoints.before.enabled == live.enabled
            && plan.endpoints.afterAllProfiles == ProfilesHash(true, Strip(ProfilesArray(raw)))
            && (plan.patch.Some? ==> plan.patch.value == Patch(map[], ids, Strip(ProfilesArray(raw)), binding.injectBefore))
            && (plan.patch.None? ==>
                  && live.inject == binding.injectBefore
                  && DiskMatches(s, raw, after, plan.endpoints.afterAllProfiles, plan.endpoints.before.unrelated))
  {
    hide Agrees, DiskMatches, HasDependents, OWNED, Strip, ProfilesArray, InjectUnmoved, UnrelatedView, SlotsOf, Presence, McpFlag, ValidProfile;
  }

  /** Writing back what is there and removing what is not changes nothing more. */
  lemma SameProviders(raw: Json, owned: map<Name, Option<Json>>, ids: set<Name>)
    requires ids <= owned.Keys
    requires forall id <- owned.Keys :: owned[id] == if id in ids then None else Presence(raw, id)
    ensures var providers := map id <- owned.Keys | owned[id].Some? :: owned[id].value;
            var removed := set id <- owned.Keys | owned[id].None?;
            (ProvidersRecord(raw) + providers) - removed == (ProvidersRecord(raw) + map[]) - ids
  {
    hide ProvidersRecord;
  }

  /** A deactivation writes less than its forward patch, but the document it leaves is the same. */
  lemma DeactivationWritesForward(s: Schema, raw: Json, live: Live, binding: Binding, v: Vocabulary)
    requires Pinned(s) && PlanDeactivation(s, raw, live, binding).Planned? && binding.owned.providers.Keys == IdsOf(v)
    ensures raw.Obj?
    ensures var plan := PlanDeactivation(s, raw, live, binding);
            plan.patch.Some? ==> PersistPatch(raw, plan.patch.value) == PersistPatch(raw, PatchForDirection(plan.endpoints, Forward, raw))
  {
    assert OWNED == IdsOf(Current18);
    hide UnrelatedView, PersistPatch, PlanDeactivation, Shaped, SoundEndpoint, SlotsOf, Strip, OWNED, IdsOf, Pinned, ProvidersRecord, Presence;
    hide ApplyOwnedSlots, Agrees, DiskMatches, ProfilesArray;
    DeactivationIsSound(s, raw, live, binding);
    ShapedIsObj(raw);
    DeactivatedProviders(s, raw, live, binding);
    var plan := PlanDeactivation(s, raw, live, binding);
    if plan.patch.Some? {
      var e := plan.endpoints;
      var p, q := plan.patch.value, PatchForDirection(e, Forward, raw);
      OwnedIds(v);
      SameProviders(raw, e.afterOwned.providers, IdsOf(v));
      PatchedProfiles(s, Current18, e.afterOwned, e.afterAllProfiles, e.before.unrelated, raw);
      StrippedArray(raw);
      StripAndSlotsDetermine(q.profiles, p.profiles);
      SamePersisted(raw, p, q);
    }
  }

  lemma StrippedArray(raw: Json)
    ensures var kept := Strip(ProfilesArray(raw)); SlotsOf(kept) == [] && Strip(kept) == kept
  {
    StripIsForeign(ProfilesArray(raw));
    ForeignStays(Strip(ProfilesArray(raw)));
  }

  lemma SamePersisted(raw: Json, p: Patch, q: Patch)
    requires raw.Obj? && p.profiles == q.profiles && p.inject == q.inject
    requires PatchedProviders(ProvidersRecord(raw), p) == PatchedProviders(ProvidersRecord(raw), q)
    ensures PersistPatch(raw, p) == PersistPatch(raw, q)
  {
    hide PatchedProviders, ProvidersRecord;
  }

  /** On the live configuration the fewer writes still reach the endpoint, because the
      two agreed on every provider the deactivation leaves alone. */
  lemma DeactivatedLive(raw: Json, live: Live, after: Projection, all: ProfilesDigest, ids: set<Name>, profiles: seq<Json>, inject: bool)
    requires Agrees(raw, live, true) && after.providers.Keys == OWNED && after.inject == Some(inject)
    requires forall id <- OWNED :: after.providers[id] == if id in ids then None else Presence(raw, id)
    requires ProfilesMatch(true, profiles, all)
    ensures LiveMatches(ApplyPatch(live, Patch(map[], ids, profiles, inject)), after, all, live.enabled)
  {
    hide OWNED, Presence, WrittenFieldsEqual, ProfilesArray, McpFlag, MetadataProviders, ProfilesMatch;
  }

  /** The patch that a deactivation plans, under whatever vocabulary the binding was
      recorded in, leaves document and live configuration at the after endpoint. */
  lemma DeactivationPatchArrives(s: Schema, raw: Json, live: Live, binding: Binding, v: Vocabulary)
    requires Pinned(s) && PlanDeactivation(s, raw, live, binding).Planned? && binding.owned.providers.Keys == IdsOf(v)
    requires PlanDeactivation(s, raw, live, binding).patch.Some?
    ensures raw.Obj?
    ensures var plan := PlanDeactivation(s, raw, live, binding);
            Classify(s, PersistPatch(raw, plan.patch.value), ApplyPatch(live, plan.patch.value), plan.endpoints).class_.After?
  {
    assert OWNED == IdsOf(Current18);
    hide UnrelatedView, PersistPatch, PlanDeactivation, SoundEndpoint, SlotsOf, Strip, OWNED, IdsOf, Pinned, Presence, Shaped;
    hide Agrees, DiskMatches, LiveMatches, ProfilesArray, ApplyPatch;
    DeactivationIsSound(s, raw, live, binding);
    DeactivationWritesForward(s, raw, live, binding, v);
    DeactivatedProviders(s, raw, live, binding);
    var plan := PlanDeactivation(s, raw, live, binding);
    var e, p := plan.endpoints, plan.patch.value;
    PatchReaches(s, Current18, e.afterOwned, e.afterAllProfiles, e.before.unrelated, live.enabled, raw, live);
    DeactivatedLive(raw, live, e.afterOwned, e.afterAllProfiles, binding.owned.providers.Keys, p.profiles, p.inject);
  }

  lemma ShapedIsObj(raw: Json)
    requires Shaped(raw)
    ensures raw.Obj?
  {
  }
}
