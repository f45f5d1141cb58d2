/** The persisted configuration as a JSON document: owned projection and unrelated view. */
module ConfigDocument {
  import opened Options

  datatype Family = Codex | Pi | Devin | Claude | Opencode | Antigravity
  datatype RoleName = Supervisor | Lead | Peer

  /** Object keys and string values: the ones the code names, and all others. */
  datatype Name =
    | Agents | Providers | MetadataGeneration | Daemon | AgentProfiles | Mcp | InjectIntoAgents | Enabled
    | Id | DisplayName | Provider | Icon | Color | Model | ModeId | ThinkingOptionId | FeatureValues | Notes
    | Extends | Label | Command | Env | PaseoTools
    | SlpSupervisor | SlpLead
    | LegacyPeer(suffix: nat)
    | BaseProvider(family: Family)
    | OwnedProvider(family: Family, role: RoleName)
    | Other(text: nat)

  /** Object keys carry no order: values are compared by their canonical form. */
  datatype Json = Null | Bool(b: bool) | Num(n: int) | Str(s: Name) | Arr(items: seq<Json>) | Obj(fields: map<Name, Json>)

  const FAMILIES: set<Family> := {Codex, Pi, Devin, Claude, Opencode, Antigravity}
  const ROLES: set<RoleName> := {Supervisor, Lead, Peer}

  /** The three admitted ownership vocabularies. */
  datatype Vocabulary = Legacy12 | Legacy15 | Current18

  function FamiliesOf(v: Vocabulary): set<Family> {
    match v
    case Legacy12 => {Codex, Pi, Devin, Claude}
    case Legacy15 => {Codex, Pi, Devin, Claude, Opencode}
    case Current18 => FAMILIES
  }

  function IdsOf(v: Vocabulary): set<Name> {
    set f <- FamiliesOf(v), r <- ROLES :: OwnedProvider(f, r)
  }

  const OWNED: set<Name> := IdsOf(Current18)

  lemma OwnedIds(v: Vocabulary)
    ensures forall n: Name :: n in OWNED <==> n.OwnedProvider?
    ensures IdsOf(v) <= OWNED
  {
    forall n: Name | n.OwnedProvider?
      ensures n in OWNED
    {
      match n.family { case Codex => case Pi => case Devin => case Claude => case Opencode => case Antigravity => }
      match n.role { case Supervisor => case Lead => case Peer => }
      assert n == OwnedProvider(n.family, n.role) && n.family in FamiliesOf(Current18) && n.role in ROLES;
    }
  }

  // ------------------------------------------------------------------ paths

  function Field(j: Option<Json>, name: Name): Option<Json> {
    if j.Some? && j.value.Obj? && name in j.value.fields then Some(j.value.fields[name]) else None
  }

  function ProvidersRecord(raw: Json): map<Name, Json> {
    var found := Field(Field(Some(raw), Agents), Providers);
    if found.Some? && found.value.Obj? then found.value.fields else map[]
  }

  function ProfilesPresent(raw: Json): bool {
    Field(Field(Some(raw), Daemon), AgentProfiles).Some?
  }

  function ProfilesArray(raw: Json): seq<Json> {
    var found := Field(Field(Some(raw), Daemon), AgentProfiles);
    if found.Some? && found.value.Arr? then found.value.items else []
  }

  function McpFlag(raw: Json, name: Name): Option<Json> {
    Field(Field(Field(Some(raw), Daemon), Mcp), name)
  }

  function MetadataProviders(raw: Json): seq<Json> {
    var found := Field(Field(Field(Some(raw), Agents), MetadataGeneration), Providers);
    if found.Some? && found.value.Arr? then found.value.items else []
  }

  // --------------------------------------------------------------- profiles

  function IdOf(entry: Json): Option<Name> {
    var id := Field(Some(entry), Id);
    if id.Some? && id.value.Str? then Some(id.value.s) else None
  }

  predicate IsOwnedProfile(entry: Json) {
    IdOf(entry) == Some(SlpSupervisor) || IdOf(entry) == Some(SlpLead)
  }

  datatype Slot = Slot(index: nat, value: Json)

  /** Profiles that are not the plugin's, in their order. */
  function Strip(entries: seq<Json>): seq<Json> {
    if entries == [] then []
    else
      var init, last := entries[..|entries| - 1], entries[|entries| - 1];
      if IsOwnedProfile(last) then Strip(init) else Strip(init) + [last]
  }

  /** The plugin's profiles with the places they occupy. */
  function SlotsOf(entries: seq<Json>): seq<Slot> {
    if entries == [] then []
    else
      var init, last := entries[..|entries| - 1], entries[|entries| - 1];
      if IsOwnedProfile(last) then SlotsOf(init) + [Slot(|init|, last)] else SlotsOf(init)
  }

  predicate DistinctIds(slots: seq<Slot>) {
    forall i, j :: 0 <= i < j < |slots| ==> IdOf(slots[i].value) != IdOf(slots[j].value)
  }

  // ------------------------------------------------------------- projection

  /** Provider presence by id, owned profile slots, and the injection flag as persisted. */
  datatype Projection = Projection(providers: map<Name, Option<Json>>, profilesPresent: bool, profiles: seq<Slot>, inject: Option<bool>)

  predicate OptionalStr(j: Json, name: Name) {
    Field(Some(j), name).Some? ==> Field(Some(j), name).value.Str?
  }

  /** The saved-profile shape; unknown fields pass through. */
  predicate ValidProfile(j: Json) {
    && j.Obj? && Id in j.fields && DisplayName in j.fields && Provider in j.fields
    && OptionalStr(j, Id) && OptionalStr(j, DisplayName) && OptionalStr(j, Provider)
    && OptionalStr(j, Icon) && OptionalStr(j, Color) && OptionalStr(j, Model) && OptionalStr(j, ModeId)
    && OptionalStr(j, ThinkingOptionId) && OptionalStr(j, Notes)
    && (FeatureValues in j.fields ==> j.fields[FeatureValues].Obj?)
  }

  /** Validity of persisted documents and provider entries; both return their input unchanged. */
  datatype Schema = Schema(provider: Json -> bool, compatible: Json -> bool)

  function Presence(raw: Json, id: Name): Option<Json> {
    var providers := ProvidersRecord(raw);
    if id in providers then Some(providers[id]) else None
  }

  /** The owned slice of a raw document, unless an owned entry is malformed. */
  function ExtractProjection(s: Schema, raw: Json, ids: set<Name>): Option<Projection> {
    var slots := SlotsOf(ProfilesArray(raw));
    var inject := McpFlag(raw, InjectIntoAgents);
    if exists id <- ids :: Presence(raw, id).Some? && !s.provider(Presence(raw, id).value) then None
    else if !DistinctIds(slots) || exists slot <- slots :: !ValidProfile(slot.value) then None
    else if inject.Some? && !inject.value.Bool? then None
    else
      Some(Projection(map id <- ids :: Presence(raw, id), ProfilesPresent(raw), slots,
                      if inject.Some? then Some(inject.value.b) else None))
  }

  /** The scan over the profile array: record each owned profile once, in place. */
  method CollectSlots(entries: seq<Json>) returns (slots: Option<seq<Slot>>)
    ensures slots == if DistinctIds(SlotsOf(entries)) && (forall slot <- SlotsOf(entries) :: ValidProfile(slot.value))
                     then Some(SlotsOf(entries)) else None
  {
    var found: seq<Slot>, seen: set<Name> := [], {};
    for i := 0 to |entries|
      invariant found == SlotsOf(entries[..i]) && DistinctIds(found)
      invariant forall slot <- found :: ValidProfile(slot.value) && IdOf(slot.value).Some?
      invariant seen == set slot <- found :: IdOf(slot.value).value
    {
      assert entries[..i + 1] == entries[..i] + [entries[i]];
      if !IsOwnedProfile(entries[i]) { continue; }
      var id := IdOf(entries[i]).value;
      var more := found + [Slot(i, entries[i])];
      assert more == SlotsOf(entries[..i + 1]);
      SlotsPrefix(entries, i + 1);
      if id in seen {
        var k :| 0 <= k < |found| && IdOf(found[k].value) == Some(id);
        assert IdOf(more[k].value) == IdOf(more[i - i + |found|].value);
        return None;
      }
      if !ValidProfile(entries[i]) {
        assert more[|found|] in SlotsOf(entries);
        return None;
      }
      seen := seen + {id};
      found := more;
    }
    assert entries[..|entries|] == entries;
    return Some(found);
  }

  lemma {:induction false} SlotsPrefix(entries: seq<Json>, n: nat)
    requires n <= |entries|
    ensures SlotsOf(entries[..n]) <= SlotsOf(entries)
    decreases |entries|
  {
    if n == |entries| {
      assert entries[..n] == entries;
    } else {
      assert entries[..|entries| - 1][..n] == entries[..n];
      SlotsPrefix(entries[..|entries| - 1], n);
    }
  }

  // ---------------------------------------------------------- unrelated view

  /** An object with one field set, or deleted. */
  function With(fields: map<Name, Json>, name: Name, value: Option<Json>): map<Name, Json> {
    if value.Some? then fields[name := value.value] else fields - {name}
  }

  /** A container that disappears when nothing is left in it. */
  function Pruned(fields: map<Name, Json>): Option<Json> {
    if fields == map[] then None else Some(Obj(fields))
  }

  function AgentsView(agents: Option<Json>, ids: set<Name>): Option<Json> {
    if agents.None? || !agents.value.Obj? then agents
    else
      var providers := Field(agents, Providers);
      Pruned(With(agents.value.fields, Providers,
                  if providers.Some? && providers.value.Obj? then Pruned(providers.value.fields - ids) else providers))
  }

  function ProfilesView(profiles: Option<Json>): Option<Json> {
    if profiles.Some? && profiles.value.Arr? && Strip(profiles.value.items) != [] then Some(Arr(Strip(profiles.value.items))) else None
  }

  function McpView(mcp: Option<Json>): Option<Json> {
    if mcp.None? || !mcp.value.Obj? then mcp else Pruned(mcp.value.fields - {InjectIntoAgents})
  }

  function DaemonView(daemon: Option<Json>): Option<Json> {
    if daemon.None? || !daemon.value.Obj? then daemon
    else
      Pruned(With(With(daemon.value.fields, AgentProfiles, ProfilesView(Field(daemon, AgentProfiles))),
                  Mcp, McpView(Field(daemon, Mcp))))
  }

  /** The document without the owned slice, emptied containers pruned. */
  function UnrelatedView(raw: Json, ids: set<Name>): Json {
    if !raw.Obj? then raw
    else
      Obj(With(With(raw.fields, Agents, AgentsView(Field(Some(raw), Agents), ids)),
               Daemon, DaemonView(Field(Some(raw), Daemon))))
  }

  /** What the persisted schema says of the containers the plugin touches. */
  predicate Shaped(raw: Json) {
    && raw.Obj?
    && (var agents := Field(Some(raw), Agents); agents.Some? ==> agents.value.Obj?)
    && (var providers := Field(Field(Some(raw), Agents), Providers); providers.Some? ==> providers.value.Obj?)
    && (var daemon := Field(Some(raw), Daemon); daemon.Some? ==> daemon.value.Obj?)
    && (var profiles := Field(Field(Some(raw), Daemon), AgentProfiles); profiles.Some? ==> profiles.value.Arr?)
    && (var mcp := Field(Field(Some(raw), Daemon), Mcp); mcp.Some? ==> mcp.value.Obj?)
    && (var inject := McpFlag(raw, InjectIntoAgents); inject.Some? ==> inject.value.Bool?)
  }

  /** The unowned profiles, read off an unrelated view. */
  function ForeignProfiles(view: Json): seq<Json> {
    ProfilesArray(view)
  }

  function ProfilesIn(daemon: Option<Json>): seq<Json> {
    var found := Field(daemon, AgentProfiles);
    if found.Some? && found.value.Arr? then found.value.items else []
  }

  lemma DaemonViewKeepsForeign(daemon: Option<Json>)
    requires daemon.Some? ==> daemon.value.Obj?
    ensures ProfilesIn(DaemonView(daemon)) == Strip(ProfilesIn(daemon))
  {
    if daemon.Some? {
      var profiles := ProfilesView(Field(daemon, AgentProfiles));
      var inner := With(daemon.value.fields, AgentProfiles, profiles);
      var fields := With(inner, Mcp, McpView(Field(daemon, Mcp)));
      assert DaemonView(daemon) == Pruned(fields);
      assert AgentProfiles in fields <==> AgentProfiles in inner;
      assert AgentProfiles in inner <==> profiles.Some?;
      assert profiles.Some? ==> fields[AgentProfiles] == profiles.value;
    }
  }

  /** The unrelated view remembers the foreign profiles and their order. */
  lemma ViewKeepsForeignProfiles(raw: Json, ids: set<Name>)
    requires Shaped(raw)
    ensures ForeignProfiles(UnrelatedView(raw, ids)) == Strip(ProfilesArray(raw))
  {
    var daemon := Field(Some(raw), Daemon);
    var view := UnrelatedView(raw, ids);
    DaemonViewKeepsForeign(daemon);
    assert Field(Some(view), Daemon) == DaemonView(daemon);
    hide DaemonView, AgentsView, Strip;
    assert ProfilesArray(view) == ProfilesIn(Field(Some(view), Daemon)) && ProfilesArray(raw) == ProfilesIn(daemon);
  }
}
