/** Endpoints of a plan: one patch reaches an endpoint, and recovery can tell which
    endpoint the document and the live configuration are at. */
module ConfigEndpoint {
  import opened Options
  import opened ConfigDocument
  import opened ConfigSlots

  /** The connected configuration, resolved. */
  datatype Live = Live(enabled: bool, inject: bool, providers: map<Name, Json>, profilesPresent: bool, profiles: seq<Json>,
                       metadata: seq<Json>)

  /** The digest of a profile array covers its presence; it is represented by what it covers. */
  type ProfilesDigest = Option<seq<Json>>

  function ProfilesHash(present: bool, value: seq<Json>): ProfilesDigest {
    if present then Some(value) else None
  }

  /** At a comparison an empty array is the same whether its key is present or not. */
  predicate ProfilesMatch(present: bool, value: seq<Json>, digest: ProfilesDigest) {
    ProfilesHash(present, value) == digest || (value == [] && ProfilesHash(!present, value) == digest)
  }

  datatype Snapshot = Snapshot(owned: Projection, allProfiles: ProfilesDigest, unrelated: Json, enabled: bool, injection: bool)

  /** The parts of a plan that patches and recovery read. */
  datatype Endpoints = Endpoints(before: Snapshot, afterOwned: Projection, afterAllProfiles: ProfilesDigest)

  function InjectOf(p: Projection): bool {
    p.inject == Some(true)
  }

  predicate WrittenFieldsEqual(a: Json, b: Json) {
    forall f <- {Extends, Label, Command, Env, Enabled, PaseoTools} :: Field(Some(a), f) == Field(Some(b), f)
  }

  // ---------------------------------------------------------------- matching

  predicate DiskMatches(s: Schema, raw: Json, owned: Projection, all: ProfilesDigest, unrelated: Json) {
    var ids := owned.providers.Keys;
    var observed := ExtractProjection(s, raw, ids);
    && observed.Some?
    && (forall id <- ids :: owned.providers[id] == Presence(raw, id))
    && (observed.value.profilesPresent == owned.profilesPresent || (observed.value.profiles == [] && owned.profiles == []))
    && observed.value.profiles == owned.profiles
    && (McpFlag(raw, InjectIntoAgents) == Some(Bool(true))) == InjectOf(owned)
    && ProfilesMatch(ProfilesPresent(raw), ProfilesArray(raw), all)
    && UnrelatedView(raw, ids) == unrelated
  }

  predicate LiveMatches(live: Live, owned: Projection, all: ProfilesDigest, enabled: bool) {
    && live.enabled == enabled
    && (forall id <- owned.providers.Keys ::
          && (owned.providers[id].Some? <==> id in live.providers)
          && (id in live.providers && owned.providers[id].Some? ==> WrittenFieldsEqual(owned.providers[id].value, live.providers[id])))
    && ProfilesMatch(live.profilesPresent, live.profiles, all)
    && live.inject == InjectOf(owned)
  }

  datatype Class = Before | After | Divergent | Partial
  datatype Classification = Classification(class_: Class, endpointsEqual: bool)

  function Classify(s: Schema, raw: Json, live: Live, plan: Endpoints): Classification {
    var diskBefore := DiskMatches(s, raw, plan.before.owned, plan.before.allProfiles, plan.before.unrelated);
    var diskAfter := DiskMatches(s, raw, plan.afterOwned, plan.afterAllProfiles, plan.before.unrelated);
    var liveBefore := LiveMatches(live, plan.before.owned, plan.before.allProfiles, plan.before.enabled);
    var liveAfter := LiveMatches(live, plan.afterOwned, plan.afterAllProfiles, plan.before.enabled);
    if diskBefore && liveBefore && diskAfter && liveAfter then Classification(After, true)
    else if diskBefore && liveBefore then Classification(Before, false)
    else if diskAfter && liveAfter then Classification(After, false)
    else if diskBefore || diskAfter || liveBefore || liveAfter then Classification(Divergent, false)
    else Classification(Partial, false)
  }

  // ------------------------------------------------------------------ patches

  datatype Patch = Patch(providers: map<Name, Json>, removeProviders: set<Name>, profiles: seq<Json>, inject: bool)

  datatype Direction = Forward | Inverse

  function PatchTo(owned: Projection, injection: bool, raw: Json): Patch {
    Patch((map id <- owned.providers.Keys | owned.providers[id].Some? :: owned.providers[id].value),
          (set id <- owned.providers.Keys | owned.providers[id].None?),
          ApplyOwnedSlots(ProfilesArray(raw), owned.profiles), injection)
  }

  /** The single patch of one direction of a plan against a freshly read document. */
  function PatchForDirection(plan: Endpoints, direction: Direction, raw: Json): Patch {
    if direction.Forward? then PatchTo(plan.afterOwned, InjectOf(plan.afterOwned), raw)
    else PatchTo(plan.before.owned, plan.before.injection, raw)
  }

  /** The provider table after a patch: replaced by key, removed by key. */
  function PatchedProviders(providers: map<Name, Json>, p: Patch): map<Name, Json> {
    (providers + p.providers) - p.removeProviders
  }

  function FieldsOf(j: Option<Json>): map<Name, Json> {
    if j.Some? && j.value.Obj? then j.value.fields else map[]
  }

  /** The host persists a patch: the touched fields are written, everything else is kept. */
  function PersistPatch(raw: Json, p: Patch): Json
    requires raw.Obj?
  {
    var agents := FieldsOf(Field(Some(raw), Agents))[Providers := Obj(PatchedProviders(ProvidersRecord(raw), p))];
    var mcp := FieldsOf(Field(Field(Some(raw), Daemon), Mcp))[InjectIntoAgents := Bool(p.inject)];
    var daemon := FieldsOf(Field(Some(raw), Daemon))[AgentProfiles := Arr(p.profiles)][Mcp := Obj(mcp)];
    Obj(raw.fields[Agents := Obj(agents)][Daemon := Obj(daemon)])
  }

  /** The host applies a patch to the live configuration. */
  function ApplyPatch(live: Live, p: Patch): Live {
    live.(inject := p.inject, providers := PatchedProviders(live.providers, p), profilesPresent := true, profiles := p.profiles)
  }

  /** What a patch changes in a document, and that it changes nothing else the plugin reads. */
  lemma PersistedIs(raw: Json, p: Patch)
    requires raw.Obj?
    ensures var raw' := PersistPatch(raw, p);
            && Shaped(raw')
            && ProvidersRecord(raw') == PatchedProviders(ProvidersRecord(raw), p)
            && ProfilesPresent(raw') && ProfilesArray(raw') == p.profiles
            && McpFlag(raw', InjectIntoAgents) == Some(Bool(p.inject))
            && (Shaped(raw) ==> McpFlag(raw', Enabled) == McpFlag(raw, Enabled) && MetadataProviders(raw') == MetadataProviders(raw))
  {
  }

  lemma PatchedAgentsView(raw: Json, p: Patch, ids: set<Name>)
    requires Shaped(raw) && p.providers.Keys <= ids && p.removeProviders <= ids
    ensures AgentsView(Field(Some(PersistPatch(raw, p)), Agents), ids) == AgentsView(Field(Some(raw), Agents), ids)
  {
    var agents, agents' := Field(Some(raw), Agents), Field(Some(PersistPatch(raw, p)), Agents);
    var providers := ProvidersRecord(raw);
    assert PatchedProviders(providers, p) - ids == providers - ids;
    assert agents'.value.fields == FieldsOf(agents)[Providers := Obj(PatchedProviders(providers, p))];
    var left := Pruned(providers - ids);
    assert AgentsView(agents', ids) == Pruned(With(agents'.value.fields, Providers, left));
    assert With(agents'.value.fields, Providers, left) == With(FieldsOf(agents), Providers, left);
    if agents.None? {
      assert With(map[], Providers, left) == map[];
    } else {
      var found := Field(agents, Providers);
      if found.None? {
        assert With(agents.value.fields, Providers, None) == With(agents.value.fields, Providers, left);
      }
    }
  }

  lemma PatchedDaemonView(raw: Json, p: Patch)
    requires Shaped(raw) && Strip(p.profiles) == Strip(ProfilesArray(raw))
    ensures DaemonView(Field(Some(PersistPatch(raw, p)), Daemon)) == DaemonView(Field(Some(raw), Daemon))
  {
    var daemon, daemon' := Field(Some(raw), Daemon), Field(Some(PersistPatch(raw, p)), Daemon);
    var mcp := Field(daemon, Mcp);
    var mcp' := Obj(FieldsOf(mcp)[InjectIntoAgents := Bool(p.inject)]);
    assert daemon'.value.fields == FieldsOf(daemon)[AgentProfiles := Arr(p.profiles)][Mcp := mcp'];
    assert FieldsOf(mcp)[InjectIntoAgents := Bool(p.inject)] - {InjectIntoAgents} == FieldsOf(mcp) - {InjectIntoAgents};
    var view := ProfilesView(Some(Arr(p.profiles)));
    var rest := Pruned(FieldsOf(mcp) - {InjectIntoAgents});
    assert DaemonView(daemon') == Pruned(With(With(daemon'.value.fields, AgentProfiles, view), Mcp, rest));
    assert With(With(daemon'.value.fields, AgentProfiles, view), Mcp, rest) == With(With(FieldsOf(daemon), AgentProfiles, view), Mcp, rest);
    if daemon.None? {
      assert ProfilesArray(raw) == [] && Strip([]) == [];
      assert With(With(map[], AgentProfiles, None), Mcp, None) == map[];
    } else {
      assert ProfilesView(Field(daemon, AgentProfiles)) == view by { assert Strip([]) == []; }
      if mcp.None? {
        assert FieldsOf(mcp) - {InjectIntoAgents} == map[];
      }
    }
  }

  /** No patch that writes only owned providers and slots shows in the unrelated view. */
  lemma PatchLeavesTheRest(raw: Json, p: Patch, ids: set<Name>)
    requires Shaped(raw) && p.providers.Keys <= ids && p.removeProviders <= ids && Strip(p.profiles) == Strip(ProfilesArray(raw))
    ensures UnrelatedView(PersistPatch(raw, p), ids) == UnrelatedView(raw, ids)
  {
    PatchedAgentsView(raw, p, ids);
    PatchedDaemonView(raw, p);
    var raw' := PersistPatch(raw, p);
    var a, d := AgentsView(Field(Some(raw), Agents), ids), DaemonView(Field(Some(raw), Daemon));
    assert Field(Some(raw), Agents).None? ==> a.None?;
    assert Field(Some(raw), Daemon).None? ==> d.None?;
    assert With(With(raw'.fields, Agents, a), Daemon, d) == With(With(raw.fields, Agents, a), Daemon, d);
  }

  // ---------------------------------------------------------------- reaching

  /** An endpoint that a plan can record in a vocabulary over a document with this unrelated view. */
  ghost predicate SoundEndpoint(s: Schema, v: Vocabulary, owned: Projection, all: ProfilesDigest, unrelated: Json) {
    && owned.providers.Keys == IdsOf(v)
    && (forall id <- IdsOf(v) :: owned.providers[id].Some? ==> s.provider(owned.providers[id].value))
    && Placed(owned.profiles, |ForeignProfiles(unrelated)|) && DistinctIds(owned.profiles)
    && (forall slot <- owned.profiles :: ValidProfile(slot.value))
    && all == ProfilesHash(owned.profilesPresent, SpliceAll(ForeignProfiles(unrelated), owned.profiles))
    && (owned.profilesPresent || (owned.profiles == [] && ForeignProfiles(unrelated) == []))
  }

  /** The patched array: recorded slots in place, foreign profiles in order. */
  lemma PatchedProfiles(s: Schema, v: Vocabulary, owned: Projection, all: ProfilesDigest, unrelated: Json, raw: Json)
    requires SoundEndpoint(s, v, owned, all, unrelated) && Shaped(raw) && UnrelatedView(raw, IdsOf(v)) == unrelated
    ensures var profiles := ApplyOwnedSlots(ProfilesArray(raw), owned.profiles);
            && SlotsOf(profiles) == owned.profiles && Strip(profiles) == Strip(ProfilesArray(raw))
            && ProfilesMatch(true, profiles, all) && (profiles != [] ==> owned.profilesPresent || profiles == [])
            && (owned.profilesPresent || owned.profiles == [])
  {
    ViewKeepsForeignProfiles(raw, IdsOf(v));
    var foreign := Strip(ProfilesArray(raw));
    StripIsForeign(ProfilesArray(raw));
    PlacedIsSorted(owned.profiles, |foreign|);
    SlotsLandInPlace(foreign, owned.profiles);
  }

  lemma PatchedPresence(v: Vocabulary, owned: Projection, injection: bool, raw: Json, id: Name)
    requires owned.providers.Keys == IdsOf(v) && id in IdsOf(v) && raw.Obj?
    ensures Presence(PersistPatch(raw, PatchTo(owned, injection, raw)), id) == owned.providers[id]
  {
    PersistedIs(raw, PatchTo(owned, injection, raw));
    hide PersistPatch, IdsOf;
  }

  lemma DiskReaches(s: Schema, v: Vocabulary, owned: Projection, all: ProfilesDigest, unrelated: Json, raw: Json)
    requires SoundEndpoint(s, v, owned, all, unrelated) && Shaped(raw) && UnrelatedView(raw, IdsOf(v)) == unrelated
    ensures DiskMatches(s, PersistPatch(raw, PatchTo(owned, InjectOf(owned), raw)), owned, all, unrelated)
  {
    var p := PatchTo(owned, InjectOf(owned), raw);
    var raw' := PersistPatch(raw, p);
    PatchedProfiles(s, v, owned, all, unrelated, raw);
    PersistedIs(raw, p);
    PatchLeavesTheRest(raw, p, IdsOf(v));
    hide PersistPatch, UnrelatedView, ApplyOwnedSlots, Strip, SlotsOf, IdsOf, ProvidersRecord, ProfilesArray, McpFlag, ProfilesPresent, Shaped;
    hide ProfilesMatch, Presence;
    forall id | id in IdsOf(v)
      ensures Presence(raw', id) == owned.providers[id]
    {
      PatchedPresence(v, owned, InjectOf(owned), raw, id);
    }
    ExtractsOwned(s, v, raw', owned);
    hide ExtractProjection;
  }

  lemma WritesItself(j: Json)
    ensures WrittenFieldsEqual(j, j)
  {
  }

  lemma LiveReaches(s: Schema, v: Vocabulary, owned: Projection, all: ProfilesDigest, unrelated: Json, enabled: bool, raw: Json, live: Live)
    requires SoundEndpoint(s, v, owned, all, unrelated) && Shaped(raw) && UnrelatedView(raw, IdsOf(v)) == unrelated && live.enabled == enabled
    ensures LiveMatches(ApplyPatch(live, PatchTo(owned, InjectOf(owned), raw)), owned, all, enabled)
  {
    assert owned.providers.Keys == IdsOf(v);
    hide UnrelatedView, ApplyOwnedSlots, Strip, SlotsOf, IdsOf, ProfilesArray, Shaped, ProfilesMatch, SoundEndpoint, WrittenFieldsEqual;
    PatchedProfiles(s, v, owned, all, unrelated, raw);
    forall j: Json
      ensures WrittenFieldsEqual(j, j)
    {
      WritesItself(j);
    }
  }

  /** From whatever owned state a document and the live configuration are in, the
      endpoint's patch reaches the endpoint on both, as long as the unrelated
      configuration is still the recorded one; the owned profiles are found again at
      exactly their recorded places and the others keep their order. */
  lemma PatchReaches(s: Schema, v: Vocabulary, owned: Projection, all: ProfilesDigest, unrelated: Json, enabled: bool, raw: Json, live: Live)
    requires SoundEndpoint(s, v, owned, all, unrelated)
    requires Shaped(raw) && UnrelatedView(raw, IdsOf(v)) == unrelated && live.enabled == enabled
    ensures var p := PatchTo(owned, InjectOf(owned), raw);
            && DiskMatches(s, PersistPatch(raw, p), owned, all, unrelated)
            && LiveMatches(ApplyPatch(live, p), owned, all, enabled)
            && SlotsOf(p.profiles) == owned.profiles && Strip(p.profiles) == Strip(ProfilesArray(raw))
  {
    hide DiskMatches, LiveMatches, SoundEndpoint, UnrelatedView, ApplyOwnedSlots, Shaped, PersistPatch, ApplyPatch;
    DiskReaches(s, v, owned, all, unrelated, raw);
    LiveReaches(s, v, owned, all, unrelated, enabled, raw, live);
    PatchedProfiles(s, v, owned, all, unrelated, raw);
  }

  lemma ExtractsOwned(s: Schema, v: Vocabulary, raw: Json, owned: Projection)
    requires owned.providers.Keys == IdsOf(v) && forall id <- IdsOf(v) :: Presence(raw, id) == owned.providers[id]
    requires forall id <- IdsOf(v) :: owned.providers[id].Some? ==> s.provider(owned.providers[id].value)
    requires SlotsOf(ProfilesArray(raw)) == owned.profiles && DistinctIds(owned.profiles)
    requires forall slot <- owned.profiles :: ValidProfile(slot.value)
    requires McpFlag(raw, InjectIntoAgents).Some? && McpFlag(raw, InjectIntoAgents).value.Bool?
    ensures var e := ExtractProjection(s, raw, IdsOf(v));
            && e.Some? && e.value.profiles == owned.profiles && e.value.profilesPresent == ProfilesPresent(raw)
            && e.value.providers == owned.providers && e.value.inject == Some(McpFlag(raw, InjectIntoAgents).value.b)
  {
    hide IdsOf, SlotsOf, ProfilesArray, McpFlag, Presence, ProfilesPresent, ValidProfile, DistinctIds;
    assert (map id <- IdsOf(v) :: Presence(raw, id)) == owned.providers;
  }

  lemma SameArray(x: Json, y: Json, digest: ProfilesDigest)
    requires ProfilesMatch(ProfilesPresent(x), ProfilesArray(x), digest) && ProfilesMatch(ProfilesPresent(y), ProfilesArray(y), digest)
    ensures ProfilesArray(x) == ProfilesArray(y)
  {
    assert !ProfilesPresent(x) ==> ProfilesArray(x) == [];
    assert !ProfilesPresent(y) ==> ProfilesArray(y) == [];
  }

  /** An endpoint determines the document: two documents that match it agree on every
      owned provider, on the whole profile array, on the effective injection flag and
      on everything unrelated.  They can differ only in whether an empty array or a
      false flag is written out. */
  lemma EndpointDeterminesDocument(s: Schema, x: Json, y: Json, owned: Projection, all: ProfilesDigest, unrelated: Json)
    requires DiskMatches(s, x, owned, all, unrelated) && DiskMatches(s, y, owned, all, unrelated)
    ensures forall id <- owned.providers.Keys :: Presence(x, id) == Presence(y, id)
    ensures ProfilesArray(x) == ProfilesArray(y)
    ensures (McpFlag(x, InjectIntoAgents) == Some(Bool(true))) == (McpFlag(y, InjectIntoAgents) == Some(Bool(true)))
    ensures UnrelatedView(x, owned.providers.Keys) == UnrelatedView(y, owned.providers.Keys)
  {
    SameArray(x, y, all);
    hide UnrelatedView, ExtractProjection, ProfilesArray, Presence, McpFlag;
  }
}
