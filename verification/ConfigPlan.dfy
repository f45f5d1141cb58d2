/** Activation, rebind and deactivation plans. */
module ConfigPlan {
  import opened Options
  import opened ConfigDocument
  import opened ConfigSlots
  import opened ConfigEndpoint

  // ------------------------------------------------------------ profile edits

  /** An explicit field edit: absent keeps the live value, null clears, a value writes. */
  datatype Edit = Keep | Clear | Put(value: Json)
  datatype Prefs = Prefs(family: Option<Family>, model: Edit, modeId: Edit, thinking: Edit, features: Edit)
  datatype Choice = Choice(family: Family, model: Option<Json>, modeId: Option<Json>, thinking: Option<Json>, features: Option<Json>)
  datatype Routing = Routing(supervisor: Choice, lead: Choice)

  /** A role without preferences has `NO_PREFS`. */
  datatype Input = Input(adoptIdentical: bool, initialFamily: Option<Family>, supervisor: Prefs, lead: Prefs)

  const NO_PREFS := Prefs(None, Keep, Keep, Keep, Keep)

  function Edited(fields: map<Name, Json>, name: Name, e: Edit): map<Name, Json> {
    match e
    case Keep => fields
    case Clear => fields - {name}
    case Put(v) => fields[name := v]
  }

  function Supplied(fields: map<Name, Json>, name: Name, v: Option<Json>): map<Name, Json> {
    if v.Some? then fields[name := v.value] else fields
  }

  function EditFields(fields: map<Name, Json>, prefs: Prefs): map<Name, Json> {
    Edited(Edited(Edited(Edited(fields, Model, prefs.model), ModeId, prefs.modeId), ThinkingOptionId, prefs.thinking),
           FeatureValues, prefs.features)
  }

  function SupplyFields(fields: map<Name, Json>, c: Choice): map<Name, Json> {
    Supplied(Supplied(Supplied(Supplied(fields, Model, c.model), ModeId, c.modeId), ThinkingOptionId, c.thinking),
             FeatureValues, c.features)
  }

  /** Point a profile at a family's provider.  A family that encodes effort in its
      model does not inherit a thinking option nobody asked for. */
  function Repoint(fields: map<Name, Json>, family: Family, role: RoleName, thinkingAsked: bool): map<Name, Json> {
    var named := fields[Provider := Str(OwnedProvider(family, role))];
    if family.Antigravity? && !thinkingAsked then named - {ThinkingOptionId} else named
  }

  /** Explicit preferences over a live profile. */
  function ApplyPrefs(fields: map<Name, Json>, prefs: Prefs, role: RoleName): map<Name, Json> {
    EditFields(if prefs.family.None? then fields else Repoint(fields, prefs.family.value, role, !prefs.thinking.Keep?), prefs)
  }

  /** The stored routing over a live profile. */
  function ApplyRouting(fields: map<Name, Json>, c: Choice, role: RoleName): map<Name, Json> {
    SupplyFields(Repoint(fields, c.family, role, c.thinking.Some?), c)
  }

  function ProfileId(role: RoleName): Name {
    if role.Lead? then SlpLead else SlpSupervisor
  }

  function ChoiceOf(r: Option<Routing>, role: RoleName): Option<Choice> {
    if r.None? then None else Some(if role.Lead? then r.value.lead else r.value.supervisor)
  }

  function PrefsOf(input: Input, role: RoleName): Prefs {
    if role.Lead? then input.lead else input.supervisor
  }

  /** The display name and notes of a managed profile. */
  datatype Texts = Texts(name: Name, notes: Name)

  function ProfileBase(role: RoleName, family: Family, texts: Texts): map<Name, Json> {
    map[Id := Str(ProfileId(role)), DisplayName := Str(texts.name), Provider := Str(OwnedProvider(family, role)), Notes := Str(texts.notes)]
  }

  /** The saved profile of a fresh binding. */
  function DesiredProfile(role: RoleName, family: Family, prefs: Prefs, choice: Option<Choice>, texts: Texts): map<Name, Json> {
    var chosen := if prefs.family.Some? then prefs.family.value else if choice.Some? then choice.value.family else family;
    var base := ProfileBase(role, chosen, texts);
    var routed := if choice.Some? then SupplyFields(base, choice.value) else base;
    EditFields(if prefs.family == Some(Antigravity) && prefs.thinking.Keep? then routed - {ThinkingOptionId} else routed, prefs)
  }

  /** The edits of a rebind: routing first, then explicit preferences. */
  function RebindEdits(fields: map<Name, Json>, prefs: Prefs, choice: Option<Choice>, role: RoleName): map<Name, Json> {
    ApplyPrefs(if choice.Some? then ApplyRouting(fields, choice.value, role) else fields, prefs, role)
  }

  // ------------------------------------------------------------------ planning

  datatype Code =
    | McpDisabled | SchemaLoss | RawLiveDivergence | Collision | OwnershipDrift | ExecutableUnavailable
    | InvalidRequest | DependentReference

  /** What a plan is made for: the available binaries, the generated provider
      entries, the stored routing and the profile texts. */
  datatype Args = Args(schema: Schema, available: set<Family>, entry: Name -> Json, routing: Option<Routing>, texts: RoleName -> Texts)

  datatype Binding = Binding(owned: Projection, injectBefore: bool, adopted: bool, beforeActivation: Snapshot)

  datatype Plan =
    | Conflict(code: Code)
    | Planned(endpoints: Endpoints, next: Option<Binding>, patch: Option<Patch>, restoreInjectionTo: bool)

  function FamilyFor(prefs: Prefs, c: Choice): Family {
    if prefs.family.Some? then prefs.family.value else c.family
  }

  /** Providers to generate: everything without a routing, otherwise the chosen
      supervisor and lead and every peer. */
  function DesiredIds(routing: Option<Routing>, input: Input): set<Name> {
    if routing.None? then OWNED
    else
      {OwnedProvider(FamilyFor(input.supervisor, routing.value.supervisor), Supervisor),
       OwnedProvider(FamilyFor(input.lead, routing.value.lead), Lead)}
      + (set f <- FAMILIES :: OwnedProvider(f, Peer))
  }

  function DesiredEntries(args: Args, input: Input): map<Name, Json> {
    map id <- DesiredIds(args.routing, input) :: args.entry(id)
  }

  predicate RoutingAvailable(args: Args, input: Input) {
    args.routing.Some? ==>
      && FamilyFor(input.supervisor, args.routing.value.supervisor) in args.available
      && FamilyFor(input.lead, args.routing.value.lead) in args.available
  }

  /** Raw and live agree on what the plugin reads and writes. */
  predicate Agrees(raw: Json, live: Live, metadata: bool) {
    && live.enabled == (McpFlag(raw, Enabled).None? || McpFlag(raw, Enabled) == Some(Bool(true)))
    && live.inject == (McpFlag(raw, InjectIntoAgents) == Some(Bool(true)))
    && (forall id <- OWNED ::
          && (Presence(raw, id).Some? <==> id in live.providers)
          && (id in live.providers && Presence(raw, id).Some? ==> WrittenFieldsEqual(Presence(raw, id).value, live.providers[id])))
    && ProfilesArray(raw) == live.profiles
    && (metadata ==> MetadataProviders(raw) == live.metadata)
  }

  predicate HasLegacyPeer(raw: Json) {
    exists entry <- ProfilesArray(raw) :: IdOf(entry).Some? && IdOf(entry).value.LegacyPeer?
  }

  function SnapshotFrom(s: Schema, raw: Json, live: Live): Option<Snapshot> {
    var owned := ExtractProjection(s, raw, OWNED);
    if owned.None? then None
    else
      Some(Snapshot(owned.value, ProfilesHash(ProfilesPresent(raw), ProfilesArray(raw)), UnrelatedView(raw, OWNED),
                    live.enabled, live.inject))
  }

  function ProviderOf(entry: Json): Option<Name> {
    var p := Field(Some(entry), Provider);
    if p.Some? && p.value.Str? then Some(p.value.s) else None
  }

  /** A foreign profile or a metadata entry names a provider of this set. */
  predicate HasDependents(raw: Json, ids: set<Name>) {
    || (exists entry <- ProfilesArray(raw) :: !IsOwnedProfile(entry) && ProviderOf(entry).Some? && ProviderOf(entry).value in ids)
    || (exists entry <- MetadataProviders(raw) :: ProviderOf(entry).Some? && ProviderOf(entry).value in ids)
  }

  predicate InjectUnmoved(owned: Projection, raw: Json) {
    McpFlag(raw, InjectIntoAgents) == (if owned.inject.Some? then Some(Bool(owned.inject.value)) else None)
  }

  datatype Chosen = Refused(code: Code) | Chosen(supervisor: Json, lead: Json, adopted: bool)

  /** Every entry with this id, in order. */
  function WithId(entries: seq<Json>, id: Name): seq<Json> {
    if entries == [] then []
    else
      var init, last := entries[..|entries| - 1], entries[|entries| - 1];
      if IdOf(last) == Some(id) then WithId(init, id) + [last] else WithId(init, id)
  }

  /** A live owned profile is unique and points at an available provider of its role. */
  predicate ValidUnderBinding(args: Args, raw: Json, role: RoleName) {
    var found := WithId(ProfilesArray(raw), ProfileId(role));
    && |found| == 1 && found[0].Obj?
    && var provider := ProviderOf(found[0]);
       provider.Some? && provider.value.OwnedProvider? && provider.value.role == role && provider.value.family in args.available
  }

  function LiveProfile(raw: Json, role: RoleName): map<Name, Json> {
    var found := WithId(ProfilesArray(raw), ProfileId(role));
    if |found| == 1 && found[0].Obj? then found[0].fields else map[]
  }

  predicate FamilyAllowed(args: Args, prefs: Prefs) {
    prefs.family.Some? ==> prefs.family.value in args.available
  }

  /** Under a binding: exact recorded providers and flag, then edits over the live profiles. */
  function RebindProfiles(args: Args, raw: Json, input: Input, binding: Binding): Chosen {
    var desired := DesiredEntries(args, input);
    var recorded := binding.owned.providers;
    if exists id <- OWNED - recorded.Keys :: Presence(raw, id).Some?
         && (!input.adoptIdentical || id !in desired || Presence(raw, id).value != desired[id])
    then Refused(Collision)
    else if exists id <- OWNED * recorded.Keys :: recorded[id] != Presence(raw, id) then Refused(OwnershipDrift)
    else if !InjectUnmoved(binding.owned, raw) then Refused(OwnershipDrift)
    else if !ValidUnderBinding(args, raw, Supervisor) || !ValidUnderBinding(args, raw, Lead) then Refused(OwnershipDrift)
    else if !RoutingAvailable(args, input) then Refused(ExecutableUnavailable)
    else if !FamilyAllowed(args, input.supervisor) || !FamilyAllowed(args, input.lead) then Refused(InvalidRequest)
    else
      Chosen(Obj(RebindEdits(LiveProfile(raw, Supervisor), input.supervisor, ChoiceOf(args.routing, Supervisor), Supervisor)),
             Obj(RebindEdits(LiveProfile(raw, Lead), input.lead, ChoiceOf(args.routing, Lead), Lead)), binding.adopted)
  }

  /** Families in registry order. */
  const REGISTRY: seq<Family> := [Codex, Pi, Devin, Claude, Opencode, Antigravity]

  function FirstFamily(families: seq<Family>, wanted: Family -> bool): Option<Family> {
    if families == [] then None else if wanted(families[0]) then Some(families[0]) else FirstFamily(families[1..], wanted)
  }

  predicate EnabledBase(live: Live, f: Family) {
    BaseProvider(f) in live.providers && Field(Some(live.providers[BaseProvider(f)]), Enabled) == Some(Bool(true))
  }

  /** The family of a fresh binding without a routing. */
  function SelectFamily(args: Args, live: Live, requested: Option<Family>): Option<Family> {
    if requested.Some? then (if requested.value in args.available then requested else None)
    else
      var enabled := FirstFamily(REGISTRY, (f: Family) => f in args.available && EnabledBase(live, f));
      if enabled.Some? then enabled
      else if Codex in args.available then Some(Codex)
      else FirstFamily(REGISTRY, (f: Family) => f in args.available)
  }

  predicate Adoptable(raw: Json, wanted: Json, role: RoleName, adopt: bool) {
    var existing := WithId(ProfilesArray(raw), ProfileId(role));
    existing == [] || (adopt && existing == [wanted])
  }

  /** Without a binding: present owned entries only by explicit exact adoption. */
  function FreshProfiles(args: Args, raw: Json, live: Live, input: Input): Chosen {
    var desired := DesiredEntries(args, input);
    var present := set id <- OWNED | Presence(raw, id).Some?;
    if exists id <- present :: !input.adoptIdentical || id !in desired || Presence(raw, id).value != desired[id]
    then Refused(Collision)
    else if !RoutingAvailable(args, input) then Refused(ExecutableUnavailable)
    else
      var family := if args.routing.Some? then Some(args.routing.value.supervisor.family) else SelectFamily(args, live, input.initialFamily);
      if family.None? then Refused(ExecutableUnavailable)
      else
        var supervisor := Obj(DesiredProfile(Supervisor, family.value, input.supervisor, ChoiceOf(args.routing, Supervisor), args.texts(Supervisor)));
        var lead := Obj(DesiredProfile(Lead, family.value, input.lead, ChoiceOf(args.routing, Lead), args.texts(Lead)));
        if !Adoptable(raw, supervisor, Supervisor, input.adoptIdentical) || !Adoptable(raw, lead, Lead, input.adoptIdentical)
        then Refused(Collision)
        else
          Chosen(supervisor, lead, present != {} || WithId(ProfilesArray(raw), SlpSupervisor) != [] || WithId(ProfilesArray(raw), SlpLead) != [])
  }

  /** The endpoint of an activation over the current array. */
  function ActiveProjection(args: Args, raw: Json, input: Input, chosen: Chosen): Projection
    requires chosen.Chosen?
  {
    var desired := DesiredEntries(args, input);
    Projection(map id <- OWNED :: if id in desired then Some(desired[id]) else None, true,
               ComputeSlots(ProfilesArray(raw), chosen.supervisor, chosen.lead), Some(true))
  }

  function ActivePatch(args: Args, raw: Json, input: Input, chosen: Chosen): Patch
    requires chosen.Chosen?
  {
    var desired := DesiredEntries(args, input);
    Patch(desired, OWNED - desired.Keys,
          ApplyOwnedSlots(ProfilesArray(raw), ComputeSlots(ProfilesArray(raw), chosen.supervisor, chosen.lead)), true)
  }

  function ConcludeActivation(args: Args, raw: Json, live: Live, input: Input, previous: Option<Binding>, before: Snapshot, chosen: Chosen): Plan
    requires chosen.Chosen?
  {
    var after, patch := ActiveProjection(args, raw, input, chosen), ActivePatch(args, raw, input, chosen);
    var all := ProfilesHash(true, patch.profiles);
    var alreadyThere := DiskMatches(args.schema, raw, after, all, before.unrelated) && live.inject;
    if patch.removeProviders != {} && !alreadyThere && HasDependents(raw, patch.removeProviders) then Conflict(DependentReference)
    else
      Planned(Endpoints(before, after, all),
              Some(Binding(after, if previous.Some? then previous.value.injectBefore else live.inject, chosen.adopted,
                           if previous.Some? then previous.value.beforeActivation else before)),
              if alreadyThere then None else Some(patch), before.injection)
  }

  function PlanActivation(args: Args, raw: Json, live: Live, input: Input, previous: Option<Binding>): Plan {
    if !live.enabled then Conflict(McpDisabled)
    else if !args.schema.compatible(raw) then Conflict(SchemaLoss)
    else if !Agrees(raw, live, false) then Conflict(RawLiveDivergence)
    else if HasLegacyPeer(raw) then Conflict(Collision)
    else
      var before := SnapshotFrom(args.schema, raw, live);
      if before.None? then Conflict(if previous.Some? then OwnershipDrift else Collision)
      else
        var chosen := if previous.Some? then RebindProfiles(args, raw, input, previous.value) else FreshProfiles(args, raw, live, input);
        if chosen.Refused? then Conflict(chosen.code)
        else ConcludeActivation(args, raw, live, input, previous, before.value, chosen)
  }

  function PlanDeactivation(s: Schema, raw: Json, live: Live, binding: Binding): Plan {
    var ids := binding.owned.providers.Keys;
    if !live.enabled then Conflict(McpDisabled)
    else if !s.compatible(raw) then Conflict(SchemaLoss)
    else if !Agrees(raw, live, true) then Conflict(RawLiveDivergence)
    else
      var before := SnapshotFrom(s, raw, live);
      if before.None? then Conflict(OwnershipDrift)
      else if exists id <- ids :: binding.owned.providers[id] != Presence(raw, id) then Conflict(OwnershipDrift)
      else if before.value.owned.profiles != binding.owned.profiles then Conflict(OwnershipDrift)
      else if !InjectUnmoved(binding.owned, raw) then Conflict(OwnershipDrift)
      else if HasDependents(raw, ids) then Conflict(DependentReference)
      else
        var patch := Patch(map[], ids, Strip(ProfilesArray(raw)), binding.injectBefore);
        var after := Projection(map id <- OWNED :: if id in ids then None else before.value.owned.providers[id], true, [], Some(patch.inject));
        var all := ProfilesHash(true, patch.profiles);
        var alreadyThere := DiskMatches(s, raw, after, all, before.value.unrelated) && live.inject == patch.inject;
        Planned(Endpoints(before.value, after, all), None, if alreadyThere then None else Some(patch), patch.inject)
  }
}
