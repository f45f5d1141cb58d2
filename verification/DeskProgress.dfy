/** Progress: a declared rollout that nothing opposes is promoted. */
module DeskProgress {
  import opened Options
  import opened Streams
  import opened DeskLedger
  import opened DeskRules
  import opened DeskCommand
  import opened DeskCheckRunner
  import opened DeskRollout
  import opened DeskStore
  import opened DeskInvariants
  import opened DeskHistory
  import opened DeskAdmission
  import opened DeskPromotion

  /** One rollout of an open assignment, with the declaration in force and its live owning lead. */
  datatype Course = Course(asg: Id, rollout: Id, lead: Seat, decl: Rollout)

  /** The rollout stands at `state` under the declaration in force. */
  ghost predicate Poised(d: Desk, l: Ledger, x: Course, state: RolloutState) {
    var decls, moves := RolloutsOf(l.rollouts, x.asg, x.rollout), TransitionsOf(l.transitions, x.asg, x.rollout);
    && Inv(d, l) && Owns(l, x.asg, x.lead) && IsLead(l, x.lead)
    && decls != [] && decls[|decls| - 1] == x.decl
    && moves != [] && moves[|moves| - 1].to == state
  }

  /** Room for `n` more requests of the lead, with ids from `base` on not used yet. */
  ghost predicate Room(d: Desk, l: Ledger, x: Course, base: nat, n: nat) {
    && (forall k: nat :: base <= k ==> RequestKey(x.lead.agent, Some(x.asg), k) !in l.requests)
    && |l.requests| + n <= d.limits.requests && |l.transitions| + n <= d.limits.transitions && |l.runs| + n <= d.limits.runs
  }

  /** Nothing but runs, transitions and the record of requests was added. */
  predicate SameGround(l: Ledger, l': Ledger) {
    l' == l.(revision := l'.revision, requests := l'.requests, runs := l'.runs, transitions := l'.transitions)
  }

  lemma GateIsGranted(l: Ledger, x: Course, mismatch: Code, closed: Code)
    requires Owns(l, x.asg, x.lead) && IsLead(l, x.lead)
    ensures OwnerGate(l, x.lead.agent, true, x.asg, mismatch, closed) == Granted(x.lead)
  {
    hide EffectiveOwner;
  }

  /** A fresh request that is decided favourably is written and recorded. */
  lemma FreshIsWritten(d: Desk, l: Ledger, c: Command)
    requires KeyOf(c) !in l.requests && |l.requests| < d.limits.requests && Decide(d, l, c).Commit?
    ensures Answer(d, l, c) == Fresh(Decide(d, l, c))
    ensures var w, l' := Decide(d, l, c).write, Next(d, l, Submit(c));
            && l' == Apply(l, w).(revision := l'.revision, requests := l'.requests)
            && l'.requests.Keys == l.requests.Keys + {KeyOf(c)} && |l'.requests| == |l.requests| + 1
            && Run(d, l, [Submit(c)]) == Some(l')
  {
    hide Decide, Apply;
    var l' := Next(d, l, Submit(c));
    assert l'.requests.Keys == l.requests.Keys + {KeyOf(c)};
    OneMore(l.requests, KeyOf(c), l'.requests[KeyOf(c)]);
    assert [Submit(c)][..0] == [];
  }

  lemma OneMore<K, V>(m: map<K, V>, k: K, v: V)
    requires k !in m
    ensures |m[k := v]| == |m| + 1
  {
    assert m[k := v].Keys == m.Keys + {k};
    assert |m.Keys + {k}| == |m.Keys| + 1;
  }

  function MoveCommand(x: Course, base: nat, command: RolloutCommand): Command {
    Move(base, x.lead.agent, x.asg, x.rollout, command, x.decl.revision, None)
  }

  lemma MoveCommits(d: Desk, l: Ledger, x: Course, from: RolloutState, command: RolloutCommand, base: nat, n: nat)
    requires Poised(d, l, x, from) && Room(d, l, x, base, n) && n > 0 && d.edge(from, command).Some?
    requires GatesOpen(d, l, MoveCommand(x, base, command), x.decl, TransitionsOf(l.transitions, x.asg, x.rollout))
    ensures Ordered(l) && Decide(d, l, MoveCommand(x, base, command)).Commit?
  {
    hide Inv, TableInv, Ordered, RolloutsOf, TransitionsOf, GatesOpen, Decide, OwnerGate, Owns, IsLead;
    InvMeans(d, l);
    TablesMean(d, l);
    GateIsGranted(l, x, ActorMismatch, RolloutConflict);
    DeclaredRevision(l, x.asg, x.rollout);
    MoveCommitsExactly(d, l, MoveCommand(x, base, command));
  }

  /** What a committed write of the lead leaves as it was. */
  lemma GroundHolds(l: Ledger, l': Ledger, x: Course)
    requires SameGround(l, l') && Owns(l, x.asg, x.lead) && IsLead(l, x.lead)
    ensures Owns(l', x.asg, x.lead) && IsLead(l', x.lead)
  {
  }

  /** A move with an edge to follow and open gates is made. */
  lemma MoveIsMade(d: Desk, l: Ledger, x: Course, from: RolloutState, command: RolloutCommand, base: nat, n: nat) returns (l': Ledger)
    requires Injective(d) && Poised(d, l, x, from) && Room(d, l, x, base, n) && n > 0 && d.edge(from, command).Some?
    requires GatesOpen(d, l, MoveCommand(x, base, command), x.decl, TransitionsOf(l.transitions, x.asg, x.rollout))
    ensures Run(d, l, [Submit(MoveCommand(x, base, command))]) == Some(l')
    ensures SameGround(l, l') && l'.runs == l.runs && Poised(d, l', x, d.edge(from, command).value) && Room(d, l', x, base + 1, n - 1)
    ensures x.asg in l.assignments
    ensures var rows := TransitionsOf(l'.transitions, x.asg, x.rollout);
            && rows != [] && rows[..|rows| - 1] == TransitionsOf(l.transitions, x.asg, x.rollout)
            && rows[|rows| - 1].command == Some(command)
            && (command.StartCanary? ==> rows[|rows| - 1].cohort == Some(CohortNow(d, l, x.asg)))
  {
    hide Injective, Inv, Ordered, RolloutsOf, TransitionsOf, GatesOpen, Owns, IsLead, Decide, Next, Run, CohortNow;
    var c := MoveCommand(x, base, command);
    MoveCommits(d, l, x, from, command, base, n);
    FreshIsWritten(d, l, c);
    NextKeepsInv(d, l, Submit(c));
    l' := Next(d, l, Submit(c));
    var row := RowOfMove(d, l, c);
    TransitionsAppend(l.transitions, row, x.asg, x.rollout);
    GroundHolds(l, l', x);
  }

  lemma DeclaredRevision(l: Ledger, a: Id, rollout: Id)
    requires Ordered(l) && RolloutsOf(l.rollouts, a, rollout) != []
    ensures var decls := RolloutsOf(l.rollouts, a, rollout); decls[|decls| - 1].revision == |decls|
  {
    hide RolloutsOf, Ordered;
    RolloutIsRead(l, a, rollout);
  }

  /** The row that a committed move appends. */
  lemma RowOfMove(d: Desk, l: Ledger, c: Command) returns (row: Transition)
    requires Ordered(l) && c.Move? && Decide(d, l, c).Commit? && TransitionsOf(l.transitions, c.asg, c.rolloutId) != []
    ensures Decide(d, l, c).write == AddTransition(row) && row.asg == c.asg && row.rolloutId == c.rolloutId && row.command == Some(c.command)
    ensures var moves := TransitionsOf(l.transitions, c.asg, c.rolloutId);
            d.edge(moves[|moves| - 1].to, c.command) == Some(row.to)
    ensures c.asg in l.assignments && (c.command.StartCanary? ==> row.cohort == Some(CohortNow(d, l, c.asg)))
  {
    hide Ordered, TransitionsOf, RolloutsOf, EffectiveOwner, CohortNow, PinnedCohort, Discharges, ObservedCandidate, RosterPin, DecideMove;
    MoveRecords(d, l, c);
    DecisionsAreLegal(d, l, c);
    row := DecideMove(d, l, c).write.transition;
    LegalTransition(d, l, row);
  }

  // ----------------------------------------------------------------- checks

  /** A required check that is defined as required and was not run on this candidate yet. */
  ghost predicate Checkable(l: Ledger, x: Course, required: Required) {
    var defs := DefinitionsOf(l.definitions, x.asg, required.checkId);
    && defs != [] && defs[|defs| - 1].digest == required.digest && defs[|defs| - 1].scopeId == x.decl.scopeId
    && RunsOf(l.runs, x.asg, x.rollout, required.checkId, x.decl.candidate) == []
  }

  function RunCommand(l: Ledger, x: Course, required: Required, base: nat): Command {
    CommitRun(base, x.lead.agent, x.asg, x.rollout, required.checkId, |DefinitionsOf(l.definitions, x.asg, required.checkId)|,
              x.decl.revision, x.decl.candidate, x.decl.head, Passed, base)
  }

  lemma RunCommits(d: Desk, l: Ledger, x: Course, required: Required, base: nat, n: nat)
    requires Poised(d, l, x, ChecksRunning) && Room(d, l, x, base, n) && n > 0 && Checkable(l, x, required)
    ensures Ordered(l) && Decide(d, l, RunCommand(l, x, required, base)).Commit?
  {
    hide Inv, TableInv, Ordered, RolloutsOf, TransitionsOf, DefinitionsOf, RunsOf, Decide, OwnerGate, Owns, IsLead, RunWindow, Checkable;
    InvMeans(d, l);
    TablesMean(d, l);
    GateIsGranted(l, x, ActorMismatch, RolloutConflict);
    DeclaredRevision(l, x.asg, x.rollout);
    WindowIsOpen(d, l, x, required);
    RunCommitsExactly(d, l, RunCommand(l, x, required, base));
  }

  lemma WindowIsOpen(d: Desk, l: Ledger, x: Course, required: Required)
    requires Poised(d, l, x, ChecksRunning) && Checkable(l, x, required)
    ensures RunWindow(l, x.asg, x.rollout, required.checkId, |DefinitionsOf(l.definitions, x.asg, required.checkId)|)
  {
    hide Inv, RolloutsOf, TransitionsOf, DefinitionsOf, RunsOf, Owns, IsLead;
  }

  /** The passed row that a committed run appends discharges its required check. */
  lemma RowOfRun(d: Desk, l: Ledger, x: Course, required: Required, base: nat) returns (row: CheckRun)
    requires Ordered(l) && Checkable(l, x, required)
    requires Decide(d, l, RunCommand(l, x, required, base)).Commit?
    requires var decls := RolloutsOf(l.rollouts, x.asg, x.rollout); decls != [] && decls[|decls| - 1] == x.decl
    ensures Decide(d, l, RunCommand(l, x, required, base)).write == AddRun(row)
    ensures row.checkId == required.checkId && Qualifies(row, x.decl, required)
  {
    hide Ordered, RolloutsOf, TransitionsOf, DefinitionsOf, RunsOf, EffectiveOwner, DecideCommitRun;
    var c := RunCommand(l, x, required, base);
    RunRecords(d, l, c);
    DecisionsAreLegal(d, l, c);
    row := DecideCommitRun(d, l, c).write.run;
    DeclaredHere(l, x);
  }

  lemma DeclaredHere(l: Ledger, x: Course)
    requires var decls := RolloutsOf(l.rollouts, x.asg, x.rollout); decls != [] && decls[|decls| - 1] == x.decl
    ensures x.decl.asg == x.asg && x.decl.rolloutId == x.rollout && x.decl in l.rollouts
  {
    FilterMember(l.rollouts, (r: Rollout) => r.asg == x.asg && r.rolloutId == x.rollout);
    assert x.decl in RolloutsOf(l.rollouts, x.asg, x.rollout);
  }

  /** A defined check that was not run yet is run, and passes. */
  lemma RunIsMade(d: Desk, l: Ledger, x: Course, required: Required, base: nat, n: nat) returns (row: CheckRun, l': Ledger)
    requires Injective(d) && Poised(d, l, x, ChecksRunning) && Room(d, l, x, base, n) && n > 0 && Checkable(l, x, required)
    ensures Run(d, l, [Submit(RunCommand(l, x, required, base))]) == Some(l')
    ensures SameGround(l, l') && l'.transitions == l.transitions && Poised(d, l', x, ChecksRunning) && Room(d, l', x, base + 1, n - 1)
    ensures l'.runs == l.runs + [row] && row.checkId == required.checkId && Qualifies(row, x.decl, required)
  {
    hide Injective, Inv, Ordered, RolloutsOf, TransitionsOf, Owns, IsLead, Decide, Next, Run, Checkable, Qualifies;
    var c := RunCommand(l, x, required, base);
    RunCommits(d, l, x, required, base, n);
    FreshIsWritten(d, l, c);
    NextKeepsInv(d, l, Submit(c));
    l' := Next(d, l, Submit(c));
    row := RowOfRun(d, l, x, required, base);
    GroundHolds(l, l', x);
  }

  /** A passed run discharges its own check and leaves the others as they were. */
  lemma RunCounts(l: Ledger, l': Ledger, x: Course, row: CheckRun, required: Required, other: Required)
    requires SameGround(l, l') && l'.runs == l.runs + [row] && row.checkId == required.checkId && Qualifies(row, x.decl, required)
    ensures Qualifying(l'.runs, x.decl, required) != []
    ensures Qualifying(l.runs, x.decl, other) != [] ==> Qualifying(l'.runs, x.decl, other) != []
    ensures other.checkId != required.checkId && Checkable(l, x, other) ==> Checkable(l', x, other)
  {
    FilterAppend(l.runs, row, (r: CheckRun) => Qualifies(r, x.decl, required));
    FilterAppend(l.runs, row, (r: CheckRun) => Qualifies(r, x.decl, other));
    RunsAppend(l.runs, row, x.asg, x.rollout, other.checkId, x.decl.candidate);
    hide RunsOf, DefinitionsOf, Filter;
  }

  /** Every check from number `k` on is still to be run, every earlier one is discharged. */
  ghost predicate CheckedUpTo(l: Ledger, x: Course, k: nat) {
    && (forall j :: 0 <= j < k && j < |x.decl.required| ==> Qualifying(l.runs, x.decl, x.decl.required[j]) != [])
    && (forall j :: k <= j < |x.decl.required| ==> Checkable(l, x, x.decl.required[j]))
  }

  lemma RunsJoin(d: Desk, l: Ledger, first: seq<Action>, m: Ledger, rest: seq<Action>, l': Ledger)
    requires Run(d, l, first) == Some(m) && Run(d, m, rest) == Some(l')
    ensures Run(d, l, first + rest) == Some(l')
  {
    RunSplits(d, l, first, rest);
  }

  /** All required checks are run, one after the other. */
  lemma {:induction false} ChecksAreMade(d: Desk, l: Ledger, x: Course, k: nat, base: nat, n: nat) returns (acts: seq<Action>, l': Ledger)
    requires Injective(d) && Poised(d, l, x, ChecksRunning) && Room(d, l, x, base, n)
    requires k <= |x.decl.required| <= n + k && CheckedUpTo(l, x, k) && DistinctChecks(x.decl.required)
    ensures Run(d, l, acts) == Some(l') && SameGround(l, l') && l'.transitions == l.transitions
    ensures Poised(d, l', x, ChecksRunning) && CheckedUpTo(l', x, |x.decl.required|)
    ensures Room(d, l', x, base + |x.decl.required| - k, n + k - |x.decl.required|)
    decreases |x.decl.required| - k
  {
    hide Injective, Run, Poised, Room, SameGround, Checkable, Qualifying, Qualifies;
    if k == |x.decl.required| {
      acts, l' := [], l;
      NoActions(d, l);
    } else {
      var required := x.decl.required[k];
      var row, m := RunIsMade(d, l, x, required, base, n);
      forall j | 0 <= j < |x.decl.required|
        ensures j <= k ==> Qualifying(m.runs, x.decl, x.decl.required[j]) != []
        ensures j > k ==> Checkable(m, x, x.decl.required[j])
      {
        RunCounts(l, m, x, row, required, x.decl.required[j]);
      }
      var rest;
      rest, l' := ChecksAreMade(d, m, x, k + 1, base + 1, n - 1);
      acts := [Submit(RunCommand(l, x, required, base))] + rest;
      RunsJoin(d, l, [Submit(RunCommand(l, x, required, base))], m, rest, l');
      GroundTwice(l, m, l');
    }
  }

  lemma NoActions(d: Desk, l: Ledger)
    ensures Run(d, l, []) == Some(l) && SameGround(l, l)
  {
  }

  lemma GroundTwice(l: Ledger, m: Ledger, l': Ledger)
    requires SameGround(l, m) && SameGround(m, l')
    ensures SameGround(l, l')
  {
  }

  // ------------------------------------------------------------------ gates

  /** The review stands, of the current scope and brief and of the declared candidate,
      for as long as nothing but runs, transitions and requests are added. */
  ghost predicate ReviewStands(d: Desk, l: Ledger, x: Course) {
    var scope := Last(SortBy(ScopesOf(l.scopes, x.asg, x.decl.scopeId), ScopeRevision));
    && scope.Some? && scope.value.briefRevision == CurrentBrief(l, x.asg)
    && forall m: Ledger | SameGround(l, m) ::
         var approval := d.approval(m, x.asg, x.decl.scopeId);
         approval.Some? && approval.value.scopeRevision == scope.value.revision
         && approval.value.candidate == x.decl.candidate && approval.value.head == x.decl.head
  }

  ghost predicate RosterPinned(d: Desk, l: Ledger, x: Course) {
    && x.asg in l.assignments
    && var pinned := PinnedCohort(TransitionsOf(l.transitions, x.asg, x.rollout));
       pinned.Some? && pinned.value.digest == d.cohortSha(RosterPin(l, x.asg))
  }

  ghost predicate RosterFits(d: Desk, l: Ledger, x: Course) {
    x.asg in l.assignments && |CohortNow(d, l, x.asg).members| <= d.limits.cohort
  }

  lemma GatesAreOpen(d: Desk, l: Ledger, start: Ledger, x: Course, base: nat, command: RolloutCommand)
    requires SameGround(start, l) && x.asg in l.assignments && !command.Rollback?
    requires command.StartCanary? ==> RosterFits(d, start, x)
    requires CheckGated(command) ==> CheckedUpTo(l, x, |x.decl.required|)
    requires ReviewGated(command) ==> ReviewStands(d, start, x)
    requires CohortGated(command) ==> RosterPinned(d, l, x)
    ensures GatesOpen(d, l, MoveCommand(x, base, command), x.decl, TransitionsOf(l.transitions, x.asg, x.rollout))
  {
    hide Qualifying, EffectiveOwner, RosterPin, TransitionsOf, ScopesOf, SortBy, BriefsOf, AgentsOf, Checkable;
    SameRosterPin(start, l, x.asg);
    if CheckGated(command) {
      forall required <- x.decl.required
        ensures Qualifying(l.runs, x.decl, required) != []
      {
        var j :| 0 <= j < |x.decl.required| && x.decl.required[j] == required;
      }
    }
  }

  /** One gated step of the course, from a ledger that differs from the start in runs,
      transitions and requests alone. */
  lemma Advance(d: Desk, start: Ledger, acts: seq<Action>, l: Ledger, x: Course, from: RolloutState, command: RolloutCommand, base: nat, n: nat)
    returns (more: seq<Action>, l': Ledger)
    requires Injective(d) && Run(d, start, acts) == Some(l) && SameGround(start, l)
    requires Poised(d, l, x, from) && Room(d, l, x, base, n) && n > 0 && d.edge(from, command).Some? && !command.Rollback?
    requires command.StartCanary? ==> RosterFits(d, start, x)
    requires CheckGated(command) ==> CheckedUpTo(l, x, |x.decl.required|)
    requires ReviewGated(command) ==> ReviewStands(d, start, x)
    requires CohortGated(command) ==> RosterPinned(d, l, x)
    ensures Run(d, start, more) == Some(l') && SameGround(start, l') && l'.runs == l.runs
    ensures Poised(d, l', x, d.edge(from, command).value) && Room(d, l', x, base + 1, n - 1)
    ensures command.StartCanary? || (RosterPinned(d, l, x)) ==> RosterPinned(d, l', x)
    ensures var rows := TransitionsOf(l'.transitions, x.asg, x.rollout);
            rows != [] && rows[..|rows| - 1] == TransitionsOf(l.transitions, x.asg, x.rollout) && rows[|rows| - 1].command == Some(command)
  {
    assert x.asg in l.assignments;
    hide Injective, Run, Poised, Room, GatesOpen, TransitionsOf, CheckedUpTo, ReviewStands, CheckGated, ReviewGated, CohortGated, RosterFits;
    hide RosterPinned, CohortNow, SameGround;
    GatesAreOpen(d, l, start, x, base, command);
    l' := MoveIsMade(d, l, x, from, command, base, n);
    more := acts + [Submit(MoveCommand(x, base, command))];
    RunsJoin(d, start, acts, l, [Submit(MoveCommand(x, base, command))], l');
    GroundTwice(start, l, l');
    PinCarries(d, l, l', x, command);
  }

  /** The pinned roster stays pinned, and start-canary pins the roster as it is. */
  lemma PinCarries(d: Desk, l: Ledger, l': Ledger, x: Course, command: RolloutCommand)
    requires SameGround(l, l') && x.asg in l.assignments
    requires var rows := TransitionsOf(l'.transitions, x.asg, x.rollout);
             && rows != [] && rows[..|rows| - 1] == TransitionsOf(l.transitions, x.asg, x.rollout)
             && rows[|rows| - 1].command == Some(command)
             && (command.StartCanary? ==> rows[|rows| - 1].cohort == Some(CohortNow(d, l, x.asg)))
    ensures command.StartCanary? || RosterPinned(d, l, x) ==> RosterPinned(d, l', x)
  {
    hide TransitionsOf, RosterPin, EffectiveOwner;
    SameRosterPin(l, l', x.asg);
  }

  lemma SameRosterPin(l: Ledger, l': Ledger, a: Id)
    requires SameGround(l, l') && a in l.assignments
    ensures a in l'.assignments && RosterPin(l', a) == RosterPin(l, a)
  {
  }

  lemma RunsAlone(l: Ledger, l': Ledger, x: Course, k: nat)
    requires SameGround(l, l') && l'.runs == l.runs && CheckedUpTo(l, x, k)
    ensures CheckedUpTo(l', x, k)
  {
    hide Qualifying, RunsOf, DefinitionsOf;
    forall j | k <= j < |x.decl.required|
      ensures Checkable(l', x, x.decl.required[j])
    {
      assert Checkable(l, x, x.decl.required[j]);
    }
  }

  ghost predicate Shipped(d: Desk) {
    forall s, c :: d.edge(s, c) == ShippedEdge(s, c)
  }

  lemma PathEdges(d: Desk)
    requires Shipped(d)
    ensures d.edge(Declared, StartChecks) == Some(ChecksRunning) && d.edge(ChecksRunning, PassChecks) == Some(ChecksPassed)
    ensures d.edge(ChecksPassed, ReadyCanary) == Some(CanaryReady) && d.edge(CanaryReady, StartCanary) == Some(CanaryRunning)
    ensures d.edge(CanaryRunning, PassCanary) == Some(CanaryPassed) && d.edge(CanaryPassed, Promote) == Some(Promoted)
  {
  }

  /** From declared to checks-passed, every required check run on the way. */
  lemma ChecksPass(d: Desk, l: Ledger, x: Course, base: nat) returns (acts: seq<Action>, l': Ledger)
    requires Shipped(d) && Injective(d) && Poised(d, l, x, Declared) && Room(d, l, x, base, |x.decl.required| + 6)
    requires CheckedUpTo(l, x, 0) && DistinctChecks(x.decl.required)
    ensures Run(d, l, acts) == Some(l') && SameGround(l, l') && Poised(d, l', x, ChecksPassed)
    ensures CheckedUpTo(l', x, |x.decl.required|) && Room(d, l', x, base + 2 + |x.decl.required|, 4)
  {
    hide Injective, Run, Poised, Room, TransitionsOf, CheckedUpTo, ReviewStands, RosterFits, RosterPinned, SameGround, DistinctChecks;
    PathEdges(d);
    hide Shipped;
    NoActions(d, l);
    var k := |x.decl.required|;
    var run, at := Advance(d, l, [], l, x, Declared, StartChecks, base, k + 6);
    RunsAlone(l, at, x, 0);
    var checks, done := ChecksAreMade(d, at, x, 0, base + 1, k + 5);
    RunsJoin(d, l, run, at, checks, done);
    GroundTwice(l, at, done);
    acts, l' := Advance(d, l, run + checks, done, x, ChecksRunning, PassChecks, base + 1 + k, 5);
    GroundBetween(l, done, l');
    RunsAlone(done, l', x, k);
  }

  /** A declared rollout is promoted when nothing stands against it: its owner is a live
      lead, its required checks are defined as required and were not run yet, the roster
      fits a cohort and the review stands.  From any ledger, for any list of checks. */
  lemma UnopposedRolloutIsPromoted(d: Desk, l: Ledger, x: Course, base: nat) returns (acts: seq<Action>, l': Ledger)
    requires Shipped(d) && Injective(d) && Poised(d, l, x, Declared) && Room(d, l, x, base, |x.decl.required| + 6)
    requires CheckedUpTo(l, x, 0) && DistinctChecks(x.decl.required) && RosterFits(d, l, x) && ReviewStands(d, l, x)
    ensures Run(d, l, acts) == Some(l') && SameGround(l, l') && Poised(d, l', x, Promoted)
    ensures var rows := TransitionsOf(l'.transitions, x.asg, x.rollout); rows != [] && rows[|rows| - 1].command == Some(Promote)
  {
    hide Injective, Run, Poised, Room, TransitionsOf, CheckedUpTo, ReviewStands, RosterFits, RosterPinned, SameGround, DistinctChecks;
    PathEdges(d);
    var k := |x.decl.required|;
    var run, done := ChecksPass(d, l, x, base);
    hide Shipped;
    var at;
    run, at := Advance(d, l, run, done, x, ChecksPassed, ReadyCanary, base + 2 + k, 4);
    run, at := Advance(d, l, run, at, x, CanaryReady, StartCanary, base + 3 + k, 3);
    run, at := Advance(d, l, run, at, x, CanaryRunning, PassCanary, base + 4 + k, 2);
    GroundBetween(l, done, at);
    RunsAlone(done, at, x, k);
    acts, l' := Advance(d, l, run, at, x, CanaryPassed, Promote, base + 5 + k, 1);
  }

  lemma GroundBetween(l: Ledger, m: Ledger, l': Ledger)
    requires SameGround(l, m) && SameGround(l, l')
    ensures SameGround(m, l')
  {
  }
}
