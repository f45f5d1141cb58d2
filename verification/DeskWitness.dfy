/** A run that starts with nothing and ends with a promoted rollout, on a desk whose
    derivations and digests are injective: the hypotheses of the promotion theorems
    are met together. */
module DeskWitness {
  import opened Options
  import opened Streams
  import opened DeskLedger
  import opened DeskRules
  import opened DeskCommand
  import opened DeskAssignment
  import opened DeskCheckRunner
  import opened DeskRollout
  import opened DeskHandback
  import opened DeskStore
  import opened DeskInvariants
  import opened DeskPromotion
  import opened DeskProgress

  // -------------------------------------------------------- injective codes

  function Pair(x: nat, y: nat): nat
    decreases x
  {
    if x == 0 then 2 * y + 1 else 2 * Pair(x - 1, y)
  }

  lemma {:induction false} PairIsInjective(x: nat, y: nat, x': nat, y': nat)
    requires Pair(x, y) == Pair(x', y')
    ensures x == x' && y == y'
    decreases x
  {
    if x > 0 && x' > 0 { PairIsInjective(x - 1, y, x' - 1, y'); }
  }

  lemma {:induction false} PairIsPositive(x: nat, y: nat)
    ensures Pair(x, y) > 0
    decreases x
  {
    if x > 0 { PairIsPositive(x - 1, y); }
  }

  function Code(p: seq<nat>): nat {
    if p == [] then 0 else Pair(p[0], Code(p[1..]))
  }

  lemma {:induction false} CodeIsInjective(p: seq<nat>, q: seq<nat>)
    requires Code(p) == Code(q)
    ensures p == q
  {
    if p != [] { PairIsPositive(p[0], Code(p[1..])); }
    if q != [] { PairIsPositive(q[0], Code(q[1..])); }
    if p != [] && q != [] {
      PairIsInjective(p[0], Code(p[1..]), q[0], Code(q[1..]));
      CodeIsInjective(p[1..], q[1..]);
      assert p == [p[0]] + p[1..] && q == [q[0]] + q[1..];
    }
  }

  function KindCode(k: IdKind): nat {
    match k
    case AsgId => 0 case HandbackId => 1 case CandidateId => 2 case OfferId => 3
    case AcceptId => 4 case DecisionId => 5 case RunId => 6 case TransitionId => 7
  }

  /** The members of a set below a bound, one bit each. */
  function Bits(s: set<Id>, lo: nat, hi: nat): nat
    decreases hi - lo
  {
    if lo >= hi then 0 else (if lo in s then 1 else 0) + 2 * Bits(s, lo + 1, hi)
  }

  lemma {:induction false} BitsAreInjective(s: set<Id>, t: set<Id>, lo: nat, hi: nat)
    requires lo <= hi && Bits(s, lo, hi) == Bits(t, lo, hi)
    ensures forall i: nat | lo <= i < hi :: i in s <==> i in t
    decreases hi - lo
  {
    if lo < hi { BitsAreInjective(s, t, lo + 1, hi); }
  }

  ghost predicate BoundedBy(s: set<Id>, n: nat) {
    forall i <- s :: i < n
  }

  lemma {:induction false} SetsAreBounded(s: set<Id>)
    ensures exists n: nat :: BoundedBy(s, n)
    decreases s
  {
    if i :| i in s {
      SetsAreBounded(s - {i});
      var n: nat :| BoundedBy(s - {i}, n);
      forall j <- s
        ensures j < n + i + 1
      {
        assert j == i || j in s - {i};
      }
      assert BoundedBy(s, n + i + 1);
    } else {
      assert BoundedBy(s, 0);
    }
  }

  ghost function BoundOf(s: set<Id>): nat {
    SetsAreBounded(s);
    var n: nat :| BoundedBy(s, n);
    n
  }

  ghost function SetCode(s: set<Id>): nat {
    Pair(BoundOf(s), Bits(s, 0, BoundOf(s)))
  }

  lemma SetCodeIsInjective(s: set<Id>, t: set<Id>)
    requires SetCode(s) == SetCode(t)
    ensures s == t
  {
    PairIsInjective(BoundOf(s), Bits(s, 0, BoundOf(s)), BoundOf(t), Bits(t, 0, BoundOf(t)));
    BitsAreInjective(s, t, 0, BoundOf(s));
    assert BoundedBy(s, BoundOf(s)) && BoundedBy(t, BoundOf(s));
  }

  ghost function PinCode(p: CohortPin): nat {
    match p
    case LegacyPin(members, revision) => Code([0, SetCode(members), revision])
    case OwnedPin(members, revision, ownership) => Code([1, SetCode(members), revision, ownership])
  }

  lemma PinCodeIsInjective(p: CohortPin, q: CohortPin)
    requires PinCode(p) == PinCode(q)
    ensures p == q
  {
    var m, n := Flat(p), Flat(q);
    CodeIsInjective(m, n);
    assert m[0] == n[0] && m[1] == n[1] && m[2] == n[2];
    SetCodeIsInjective(p.members, q.members);
    if p.OwnedPin? { assert m[3] == n[3]; }
  }

  ghost function Flat(p: CohortPin): (s: seq<nat>)
    ensures Code(s) == PinCode(p)
  {
    match p
    case LegacyPin(members, revision) => [0, SetCode(members), revision]
    case OwnedPin(members, revision, ownership) => [1, SetCode(members), revision, ownership]
  }

  // ----------------------------------------------------------------- a desk

  const SNAPSHOT: Sha := 7
  const PLENTY: nat := 20

  /** A desk that approves one candidate, finds no fault with reports and has room. */
  ghost predicate Permissive(d: Desk) {
    && (forall l, a, scope :: d.approval(l, a, scope) == Some(Approval(1, SNAPSHOT, None, [])))
    && (forall r :: !d.reportProblem(r))
    && d.limits.requests >= PLENTY && d.limits.assignments >= PLENTY && d.limits.seats >= PLENTY && d.limits.handbacks >= PLENTY
    && d.limits.candidates >= PLENTY && d.limits.definitions >= PLENTY && d.limits.runs >= PLENTY && d.limits.rollouts >= PLENTY
    && d.limits.transitions >= PLENTY && d.limits.cohort >= PLENTY && d.limits.offers >= PLENTY && d.limits.accepts >= PLENTY
  }

  ghost function Plain(): Desk {
    Desk((k, p) => Pair(KindCode(k), Code(p)), e => 0, e => 0, p => PinCode(p), (s, c) => ShippedEdge(s, c),
         (l, a, scope) => Some(Approval(1, SNAPSHOT, None, [])), r => false, r => [],
         Limits(PLENTY, PLENTY, PLENTY, PLENTY, PLENTY, PLENTY, PLENTY, PLENTY, PLENTY, PLENTY, PLENTY, PLENTY, PLENTY, PLENTY))
  }

  lemma PlainIsInjective()
    ensures Injective(Plain()) && InjectiveCohorts(Plain()) && Shipped(Plain()) && Permissive(Plain())
  {
    var d := Plain();
    forall k, p, k', p' | d.derive(k, p) == d.derive(k', p')
      ensures k == k' && p == p'
    {
      PairIsInjective(KindCode(k), Code(p), KindCode(k'), Code(p'));
      CodeIsInjective(p, p');
    }
    forall p, q | d.cohortSha(p) == d.cohortSha(q)
      ensures p == q
    {
      PinCodeIsInjective(p, q);
    }
  }

  // ------------------------------------------------------------------ a run

  const LEAD := Seat(1, 11)
  const MATE := Seat(2, 12)
  const MEMBERS := [Member(11, Some(1), Lead, false, true, 0), Member(12, Some(2), Lead, false, true, 0)]
  const SCOPE: Id := 5
  const CHECK := Required(3, 9)
  const ROLLOUT: Id := 4

  function Asg(d: Desk): Id { d.derive(AsgId, [1, 0]) }

  function Handed(d: Desk): Id { d.derive(HandbackId, [2, Asg(d), 0]) }

  /** The tables after each step, whatever the revision and the record of requests. */
  function Grounds(d: Desk): Ledger {
    EMPTY.(members := MEMBERS, scopes := [Scope(Asg(d), SCOPE, 1, None, 0)])
  }

  function Registered(d: Desk): Ledger {
    Grounds(d).(assignments := map[Asg(d) := Assignment(LEAD, true, [], 0)])
  }

  function Seated(d: Desk): Ledger {
    Grounds(d).(assignments := map[Asg(d) := Assignment(LEAD, true, [MATE], 0)])
  }

  function Claim(d: Desk, observed: Observation): Handback {
    Handback(Handed(d), Asg(d), 2, 12, 0, 1, 0, None, observed, d.warnings(0))
  }

  function Submitted(d: Desk): Ledger {
    Seated(d).(handbacks := [Claim(d, Pending(0))])
  }

  function Found(d: Desk): Candidate {
    Candidate(d.derive(CandidateId, [Handed(d)]), Asg(d), 2, 12, 0, SNAPSHOT, None)
  }

  function Measured(d: Desk): Ledger {
    Seated(d).(handbacks := [Claim(d, Captured(Found(d).candidateId, 0))], candidates := [Found(d)])
  }

  function Checked(d: Desk): Ledger {
    Measured(d).(definitions := [Definition(CHECK.checkId, Asg(d), SCOPE, 1, 1, None, LEAD, 2, CHECK.digest, 1)])
  }

  function Declaration(d: Desk): Rollout {
    Rollout(ROLLOUT, Asg(d), SCOPE, 2, 1, None, LEAD, 2, SNAPSHOT, None, [CHECK])
  }

  function DeclareIt(d: Desk): Command {
    DeclareRollout(2, 1, Asg(d), SCOPE, ROLLOUT, SNAPSHOT, None, [CHECK])
  }

  function Ready(d: Desk): Ledger {
    Checked(d).(rollouts := [Declaration(d)], transitions := [Opening(d, DeclareIt(d), LEAD)])
  }

  predicate Same(l: Ledger, tables: Ledger) {
    l == tables.(revision := l.revision, requests := l.requests)
  }

  lemma RegisterCommits(d: Desk, l: Ledger)
    requires Same(l, Grounds(d)) && Permissive(d)
    ensures Decide(d, l, Register(0, 1, 0)) == Commit(AddAssignment(Asg(d), Assignment(LEAD, true, [], 0)))
  {
  }

  lemma AttachCommits(d: Desk, l: Ledger)
    requires Same(l, Registered(d)) && Permissive(d)
    ensures Decide(d, l, Attach(0, 1, Asg(d), 2)) == Commit(AddSeat(Asg(d), MATE))
  {
  }

  lemma SubmitCommits(d: Desk, l: Ledger)
    requires Same(l, Seated(d)) && Permissive(d)
    ensures Decide(d, l, SubmitHandback(0, 2, Asg(d), 0, None)) == Commit(AddHandback(Claim(d, Pending(0))))
  {
  }

  lemma ObserveCommits(d: Desk, l: Ledger)
    requires Same(l, Submitted(d)) && Permissive(d)
    ensures Decide(d, l, ObserveHandback(1, 2, Asg(d), Handed(d), MeasuredAt(0, SNAPSHOT, None))) ==
            Commit(Observe(Handed(d), Captured(Found(d).candidateId, 0), d.warnings(0), Some(Found(d))))
  {
  }

  lemma CheckCommits(d: Desk, l: Ledger)
    requires Same(l, Measured(d)) && Permissive(d)
    ensures Decide(d, l, DeclareCheck(1, 1, Asg(d), SCOPE, CHECK.checkId, CHECK.digest, 1)) ==
            Commit(AddDefinition(Definition(CHECK.checkId, Asg(d), SCOPE, 1, 1, None, LEAD, 2, CHECK.digest, 1)))
  {
  }

  lemma FilterOne<T>(x: T, keep: T -> bool)
    ensures Filter([x], keep) == if keep(x) then [x] else []
  {
    assert [x] == [] + [x] && Filter([], keep) == [];
    FilterAppend([], x, keep);
  }

  lemma OnlyScope(d: Desk, l: Ledger)
    requires l.scopes == Grounds(d).scopes
    ensures SortBy(ScopesOf(l.scopes, Asg(d), SCOPE), ScopeRevision) == l.scopes
  {
    FilterOne(l.scopes[0], (r: Scope) => r.asg == Asg(d) && r.scopeId == SCOPE);
    assert [l.scopes[0]][..0] == [];
  }

  lemma DeclarationCommits(d: Desk, l: Ledger)
    requires Same(l, Checked(d)) && Permissive(d)
    ensures Decide(d, l, DeclareIt(d)) == Commit(AddRollout(Declaration(d), Some(Opening(d, DeclareIt(d), LEAD))))
  {
    var def := l.definitions[0];
    assert def in l.definitions && def.asg == Asg(d) && def.checkId == CHECK.checkId && def.scopeId == SCOPE && def.digest == CHECK.digest;
    assert RequiredResolve(l, Asg(d), SCOPE, [CHECK]);
    assert CandidateNamed(l.candidates, Asg(d), SNAPSHOT) == Some(Found(d));
    assert OwnerGate(l, 1, true, Asg(d), ActorMismatch, RolloutConflict) == Granted(LEAD);
    OnlyScope(d, l);
    assert SortBy(RolloutsOf(l.rollouts, Asg(d), ROLLOUT), RolloutRevision) == [];
    assert StructuralRevision(l.assignments[Asg(d)]) == 2;
    hide RequiredResolve, CandidateNamed, OwnerGate, SortBy, ScopesOf, RolloutsOf, StructuralRevision;
  }

  /** The request keys in the order they are used. */
  function KeyAt(d: Desk, i: nat): RequestKey {
    var a := Some(Asg(d));
    if i == 0 then RequestKey(0, None, 0) else if i == 1 then RequestKey(1, None, 0) else if i == 2 then RequestKey(1, a, 0)
    else if i == 3 then RequestKey(2, a, 0) else if i == 4 then RequestKey(2, a, 1) else if i == 9 then RequestKey(2, a, 5)
    else if i == 10 then RequestKey(2, a, 9) else if i == 11 then RequestKey(2, a, 6) else RequestKey(1, a, i - 4)
  }

  /** The run so far, what it left, and how many requests it used. */
  ghost predicate Reached(d: Desk, acts: seq<Action>, l: Ledger, tables: Ledger, n: nat) {
    && Run(d, EMPTY, acts) == Some(l) && Same(l, tables)
    && (forall k <- l.requests :: exists i: nat :: i < n && k == KeyAt(d, i)) && |l.requests| == n
  }

  lemma Reach(d: Desk, acts: seq<Action>, l: Ledger, tables: Ledger, n: nat, c: Command, tables': Ledger)
    returns (acts': seq<Action>, l': Ledger)
    requires Reached(d, acts, l, tables, n) && KeyOf(c) == KeyAt(d, n) && n < d.limits.requests
    requires Decide(d, l, c).Commit? && Same(Apply(l, Decide(d, l, c).write), tables')
    ensures Reached(d, acts', l', tables', n + 1) && acts' == acts + [Submit(c)]
  {
    hide Decide, Apply, Run;
    FreshIsWritten(d, l, c);
    l' := Next(d, l, Submit(c));
    acts' := acts + [Submit(c)];
    RunsJoin(d, EMPTY, acts, l, [Submit(c)], l');
    hide Next;
  }

  lemma ReachGrounds(d: Desk) returns (acts: seq<Action>, l: Ledger)
    ensures Reached(d, acts, l, Grounds(d), 1)
  {
    var other := Other(MEMBERS, Grounds(d).scopes, KeyAt(d, 0));
    acts, l := [other], Next(d, EMPTY, other);
    assert acts[..0] == [];
    assert l.requests.Keys == {KeyAt(d, 0)};
  }

  lemma ReachedMeans(d: Desk, acts: seq<Action>, l: Ledger, tables: Ledger, n: nat)
    requires Reached(d, acts, l, tables, n)
    ensures Run(d, EMPTY, acts) == Some(l) && Same(l, tables)
  {
  }

  /** One committed request after another, to a seated assignment. */
  lemma ReachSeated(d: Desk) returns (acts: seq<Action>, l: Ledger)
    requires Permissive(d)
    ensures Reached(d, acts, l, Seated(d), 3)
  {
    hide Decide, Reached, Run, Same;
    acts, l := ReachGrounds(d);
    ReachedMeans(d, acts, l, Grounds(d), 1);
    RegisterCommits(d, l);
    Applied(l, Grounds(d), AddAssignment(Asg(d), Assignment(LEAD, true, [], 0)), Registered(d));
    acts, l := Reach(d, acts, l, Grounds(d), 1, Register(0, 1, 0), Registered(d));
    ReachedMeans(d, acts, l, Registered(d), 2);
    AttachCommits(d, l);
    assert Apply(Registered(d), AddSeat(Asg(d), MATE)) == Seated(d) by { SeatApplies(d); }
    assert Same(Seated(d), Seated(d)) by { SameAsItself(Seated(d)); }
    Applied(l, Registered(d), AddSeat(Asg(d), MATE), Seated(d));
    acts, l := Reach(d, acts, l, Registered(d), 2, Attach(0, 1, Asg(d), 2), Seated(d));
  }

  lemma SeatApplies(d: Desk)
    ensures Apply(Registered(d), AddSeat(Asg(d), MATE)) == Seated(d)
  {
    var a := Asg(d);
    var x, y := Assignment(LEAD, true, [], 0), Assignment(LEAD, true, [MATE], 0);
    assert x.(seats := x.seats + [MATE]) == y;
    assert map[a := x][a := y] == map[a := y];
  }

  lemma SameAsItself(l: Ledger)
    ensures Same(l, l)
  {
  }

  lemma Applied(l: Ledger, tables: Ledger, w: Write, tables': Ledger)
    requires Same(l, tables) && Same(Apply(tables, w), tables')
    ensures Same(Apply(l, w), tables')
  {
  }

  /** To a measured candidate. */
  lemma ReachMeasured(d: Desk) returns (acts: seq<Action>, l: Ledger)
    requires Permissive(d)
    ensures Reached(d, acts, l, Measured(d), 5)
  {
    hide Decide, Reached, Run;
    acts, l := ReachSeated(d);
    ReachedMeans(d, acts, l, Seated(d), 3);
    SubmitCommits(d, l);
    acts, l := Reach(d, acts, l, Seated(d), 3, SubmitHandback(0, 2, Asg(d), 0, None), Submitted(d));
    ReachedMeans(d, acts, l, Submitted(d), 4);
    ObserveCommits(d, l);
    acts, l := Reach(d, acts, l, Submitted(d), 4, ObserveHandback(1, 2, Asg(d), Handed(d), MeasuredAt(0, SNAPSHOT, None)), Measured(d));
  }

  /** To a declared rollout with a required check. */
  lemma ReachReady(d: Desk) returns (acts: seq<Action>, l: Ledger)
    requires Permissive(d)
    ensures Reached(d, acts, l, Ready(d), 7)
  {
    hide Decide, Reached, Run;
    acts, l := ReachMeasured(d);
    ReachedMeans(d, acts, l, Measured(d), 5);
    CheckCommits(d, l);
    acts, l := Reach(d, acts, l, Measured(d), 5, DeclareCheck(1, 1, Asg(d), SCOPE, CHECK.checkId, CHECK.digest, 1), Checked(d));
    ReachedMeans(d, acts, l, Checked(d), 6);
    DeclarationCommits(d, l);
    acts, l := Reach(d, acts, l, Checked(d), 6, DeclareIt(d), Ready(d));
  }

  function TheCourse(d: Desk): Course {
    Course(Asg(d), ROLLOUT, LEAD, Declaration(d))
  }

  lemma ReadyStreams(d: Desk, l: Ledger)
    requires Same(l, Ready(d))
    ensures RolloutsOf(l.rollouts, Asg(d), ROLLOUT) == [Declaration(d)]
    ensures TransitionsOf(l.transitions, Asg(d), ROLLOUT) == [Opening(d, DeclareIt(d), LEAD)]
    ensures DefinitionsOf(l.definitions, Asg(d), CHECK.checkId) == Checked(d).definitions
    ensures RunsOf(l.runs, Asg(d), ROLLOUT, CHECK.checkId, SNAPSHOT) == []
    ensures SortBy(ScopesOf(l.scopes, Asg(d), SCOPE), ScopeRevision) == Grounds(d).scopes && CurrentBrief(l, Asg(d)) == 0
  {
    var a := Asg(d);
    OnlyScope(d, l);
    FilterOne(Declaration(d), (r: Rollout) => r.asg == a && r.rolloutId == ROLLOUT);
    FilterOne(Opening(d, DeclareIt(d), LEAD), (r: Transition) => r.asg == a && r.rolloutId == ROLLOUT);
    FilterOne(l.definitions[0], (r: Definition) => r.asg == a && r.checkId == CHECK.checkId);
  }

  lemma ReadyCustody(d: Desk, l: Ledger)
    requires Same(l, Ready(d)) && Permissive(d)
    ensures Owns(l, Asg(d), LEAD) && IsLead(l, LEAD) && RosterFits(d, l, TheCourse(d))
  {
    assert AgentsOf([MATE]) == {2};
    assert |{1} + {2}| <= 2;
  }

  /** The declared rollout is one that nothing opposes. */
  lemma ReadyIsUnopposed(d: Desk, acts: seq<Action>, l: Ledger)
    requires Injective(d) && Permissive(d) && Reached(d, acts, l, Ready(d), 7)
    ensures Poised(d, l, TheCourse(d), Declared) && Room(d, l, TheCourse(d), 3, 7)
    ensures CheckedUpTo(l, TheCourse(d), 0) && RosterFits(d, l, TheCourse(d)) && ReviewStands(d, l, TheCourse(d))
  {
    hide Injective, Inv, Run, Owns, IsLead, RosterFits, RolloutsOf, TransitionsOf, DefinitionsOf, RunsOf, ScopesOf, SortBy, CurrentBrief;
    ReachableInv(d, acts);
    ReadyStreams(d, l);
    ReadyCustody(d, l);
    ReadyRoom(d, acts, l);
    hide Room, Reached;
  }

  lemma ReadyRoom(d: Desk, acts: seq<Action>, l: Ledger)
    requires Permissive(d) && Reached(d, acts, l, Ready(d), 7)
    ensures Room(d, l, TheCourse(d), 3, 7)
  {
    forall k: nat | 3 <= k
      ensures RequestKey(1, Some(Asg(d)), k) !in l.requests
    {
    }
  }

  /** The hypotheses of the promotion theorems are met together: on a desk with injective
      derivations and the shipped edges, a run from the empty ledger promotes a rollout
      that requires a check. */
  lemma PromotionIsReachable() returns (d: Desk, acts: seq<Action>, l: Ledger, x: Course)
    ensures Injective(d) && InjectiveCohorts(d) && Shipped(d)
    ensures Run(d, EMPTY, acts) == Some(l) && Poised(d, l, x, Promoted) && x.decl.required != []
    ensures var rows := TransitionsOf(l.transitions, x.asg, x.rollout); rows != [] && rows[|rows| - 1].command == Some(Promote)
  {
    hide Injective, InjectiveCohorts, Shipped, Permissive, Run, Poised, Room, CheckedUpTo, RosterFits, ReviewStands, TransitionsOf;
    hide Reached, SameGround;
    PlainIsInjective();
    d := Plain();
    var first, ready := ReachReady(d);
    ReachedMeans(d, first, ready, Ready(d), 7);
    ReadyIsUnopposed(d, first, ready);
    x := TheCourse(d);
    var rest;
    rest, l := UnopposedRolloutIsPromoted(d, ready, x, 3);
    acts := first + rest;
    RunsJoin(d, EMPTY, first, ready, rest, l);
  }
}
