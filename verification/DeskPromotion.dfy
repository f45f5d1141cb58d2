/** Promotion over whole runs, for any edge table, and for the shipped one. */
module DeskPromotion {
  import opened Options
  import opened Streams
  import opened DeskLedger
  import opened DeskRules
  import opened DeskStore
  import opened DeskInvariants
  import opened DeskHistory
  import opened DeskCustody
  import opened DeskRecords
  import opened DeskEvidence

  ghost predicate InjectiveCohorts(d: Desk) {
    forall p, q :: d.cohortSha(p) == d.cohortSha(q) ==> p == q
  }

  /** The latest start-canary row of a stream. */
  lemma {:induction false} LatestCanary(d: Desk, rows: seq<Transition>, n: nat) returns (p: nat)
    requires n <= |rows| && PinnedCohort(rows[..n]).Some?
    ensures p < n && rows[p].command == Some(StartCanary) && rows[p].cohort == PinnedCohort(rows[..n])
    ensures forall k :: p < k < n ==> !(rows[k].command == Some(StartCanary) && rows[k].cohort.Some?)
    decreases n
  {
    var row := rows[n - 1];
    assert rows[..n][..n - 1] == rows[..n - 1];
    if row.command == Some(StartCanary) && row.cohort.Some? {
      p := n - 1;
    } else {
      p := LatestCanary(d, rows, n - 1);
    }
  }

  lemma LegalTransition(d: Desk, l: Ledger, row: Transition)
    requires Legal(d, l, AddTransition(row))
    ensures TransitionLegal(d, l, row)
  {
  }

  /** The step that appended a transition row, with the stream it extended. */
  lemma MoveWasCommitted(d: Desk, acts: seq<Action>, l: Ledger, a: Id, rollout: Id, n: nat) returns (i: nat)
    requires Injective(d) && Run(d, EMPTY, acts) == Some(l)
    requires 1 <= n < |TransitionsOf(l.transitions, a, rollout)|
    ensures i < |acts| && Run(d, EMPTY, acts[..i]).Some?
    ensures var w, rows := Run(d, EMPTY, acts[..i]).value, TransitionsOf(l.transitions, a, rollout);
            && TransitionLegal(d, w, rows[n]) && rows[n].asg == a && rows[n].rolloutId == rollout
            && TransitionsOf(w.transitions, a, rollout) == rows[..n] && Grows(w, l) && Inv(d, w)
            && CommittedAt(d, acts, i, AddTransition(rows[n]))
  {
    hide Injective, Inv, TableInv, Ordered, RolloutInv, TransitionsOf, Legal, TransitionLegal, Grows, Next, Decide;
    var rows := TransitionsOf(l.transitions, a, rollout);
    ReachableInv(d, acts);
    InvMeans(d, l);
    TablesMean(d, l);
    MoveIsRecorded(d, l, a, rollout, n);
    var v;
    i, v := RowsAreCommitted(d, acts, AddTransition(rows[n]));
    var w := Run(d, EMPTY, acts[..i]).value;
    CommittedIsLegal(d, acts, i, v);
    LegalTransition(d, w, rows[n]);
    EarlierLedger(d, acts, i);
    GrowsMeans(w, l);
    TransitionsGrow(w.transitions, l.transitions, a, rollout);
    assert |TransitionsOf(w.transitions, a, rollout)| == n by { LegalPlace(d, w, rows[n]); }
  }

  lemma LegalPlace(d: Desk, l: Ledger, row: Transition)
    requires TransitionLegal(d, l, row)
    ensures row.revision == |TransitionsOf(l.transitions, row.asg, row.rolloutId)| + 1
  {
  }

  lemma GrowsMeans(l: Ledger, l': Ledger)
    requires Grows(l, l')
    ensures l.transitions <= l'.transitions && l.accepts <= l'.accepts && l.rollouts <= l'.rollouts && l.runs <= l'.runs
    ensures forall a <- l.assignments :: AssignmentKept(l, l', a)
  {
  }

  lemma MoveIsRecorded(d: Desk, l: Ledger, a: Id, rollout: Id, n: nat)
    requires Ordered(l) && RolloutInv(d, l) && 1 <= n < |TransitionsOf(l.transitions, a, rollout)|
    ensures var row := TransitionsOf(l.transitions, a, rollout)[n];
            && row in l.transitions && row.asg == a && row.rolloutId == rollout && row.revision == n + 1 && row.command.Some?
  {
    var rows := TransitionsOf(l.transitions, a, rollout);
    FilterMember(l.transitions, (r: Transition) => r.asg == a && r.rolloutId == rollout);
    assert rows[n] in rows;
    assert Numbered(rows, TransitionRevision) && Machine(d, rows, RolloutsOf(l.rollouts, a, rollout));
    assert TransitionRevision(rows[n]) == n + 1 && LegalMove(d, rows, n);
  }

  /** Custody and roster of an assignment. */
  ghost predicate SameRoster(w: Ledger, w': Ledger, a: Id) {
    && a in w.assignments && a in w'.assignments
    && AcceptsOf(w.accepts, a) == AcceptsOf(w'.accepts, a)
    && w.assignments[a].seats == w'.assignments[a].seats && w.assignments[a].owner == w'.assignments[a].owner
  }

  /** Equal roster pins of an open assignment mean equal custody and seat counts. */
  lemma EqualPinsMean(w: Ledger, w': Ledger, a: Id)
    requires OpenAssignment(w, a) && OpenAssignment(w', a) && RosterPin(w, a) == RosterPin(w', a)
    ensures EffectiveOwner(w, a).revision == EffectiveOwner(w', a).revision
    ensures |w.assignments[a].seats| == |w'.assignments[a].seats|
  {
    hide EffectiveOwner, AgentsOf;
  }

  lemma CustodyLength(l: Ledger, a: Id)
    requires Ordered(l) && a in l.assignments
    ensures EffectiveOwner(l, a).revision == |AcceptsOf(l.accepts, a)|
  {
    AcceptsAreNumbered(l, a);
    OwnerIsLatest(l, a);
  }

  /** Equal roster digests of an open assignment at two points leave no room for a
      succession or an attached seat between them. */
  lemma EqualPinsMeanSameRoster(d: Desk, w: Ledger, w': Ledger, a: Id)
    requires Grows(w, w') && TableInv(d, w) && TableInv(d, w')
    requires OpenAssignment(w, a) && OpenAssignment(w', a) && RosterPin(w, a) == RosterPin(w', a)
    ensures SameRoster(w, w', a)
  {
    hide Ordered, TableInv, AcceptsOf, EffectiveOwner, Grows, RosterPin;
    TablesMean(d, w);
    TablesMean(d, w');
    GrowsMeans(w, w');
    EqualPinsMean(w, w', a);
    CustodyLength(w, a);
    CustodyLength(w', a);
    AcceptsGrow(w.accepts, w'.accepts, a);
    assert AssignmentKept(w, w', a);
  }

  lemma RosterBetween(w: Ledger, m: Ledger, w': Ledger, a: Id)
    requires Grows(w, m) && Grows(m, w') && SameRoster(w, w', a)
    ensures SameRoster(w, m, a)
  {
    GrowsMeans(w, m);
    GrowsMeans(m, w');
    hide Grows;
    AcceptsGrow(w.accepts, m.accepts, a);
    AcceptsGrow(m.accepts, w'.accepts, a);
    assert AssignmentKept(w, m, a) && AssignmentKept(m, w', a);
  }

  /** Every transition stream is a contiguous legal path that starts at declared. */
  lemma StreamsAreLegalPaths(d: Desk, acts: seq<Action>, l: Ledger, a: Id, rollout: Id)
    requires Injective(d) && Run(d, EMPTY, acts) == Some(l)
    ensures var rows := TransitionsOf(l.transitions, a, rollout);
            && (rows == [] <==> RolloutsOf(l.rollouts, a, rollout) == [])
            && forall i :: 0 <= i < |rows| ==> rows[i].revision == i + 1 && LegalMove(d, rows, i)
  {
    ReachableInv(d, acts);
    var rows := TransitionsOf(l.transitions, a, rollout);
    assert Machine(d, rows, RolloutsOf(l.rollouts, a, rollout)) && Numbered(rows, TransitionRevision);
    forall i | 0 <= i < |rows|
      ensures rows[i].revision == i + 1
    {
      assert TransitionRevision(rows[i]) == i + 1;
    }
  }

  lemma CommittedInPrefix(d: Desk, acts: seq<Action>, j: nat, i: nat, w: Write)
    requires j <= |acts| && CommittedAt(d, acts[..j], i, w)
    ensures CommittedAt(d, acts, i, w)
  {
    assert acts[..j][..i] == acts[..i] && acts[..j][i] == acts[i];
  }

  /** Step `i` of the run appended row `n` of the stream, which it found at its first `n` rows. */
  ghost predicate MovedAt(d: Desk, acts: seq<Action>, i: nat, rows: seq<Transition>, a: Id, rollout: Id, n: nat)
    requires n < |rows|
  {
    && CommittedAt(d, acts, i, AddTransition(rows[n]))
    && TransitionsOf(Run(d, EMPTY, acts[..i]).value.transitions, a, rollout) == rows[..n]
  }

  /** A cohort-gated row rests on the latest start-canary before it: one step of the run
      appended that start-canary and pinned the roster as it found it, a later one passed
      the gate and appended the gated row on the roster as it found it, and in every
      ledger from the one to the other the custody and the roster are the same. */
  lemma CohortHolds(d: Desk, acts: seq<Action>, l: Ledger, a: Id, rollout: Id, n: nat) returns (p: nat, i: nat, j: nat)
    requires Injective(d) && InjectiveCohorts(d) && Run(d, EMPTY, acts) == Some(l)
    requires 1 <= n < |TransitionsOf(l.transitions, a, rollout)|
    requires var c := TransitionsOf(l.transitions, a, rollout)[n].command; c.Some? && CohortGated(c.value)
    ensures var rows := TransitionsOf(l.transitions, a, rollout);
            && p < n && rows[p].command == Some(StartCanary) && rows[p].cohort.Some?
            && (forall k :: p < k < n ==> rows[k].command != Some(StartCanary) || rows[k].cohort.None?)
            && rows[n].cohortDigestAtGate == Some(rows[p].cohort.value.digest)
    ensures i < j < |acts| && Run(d, EMPTY, acts[..i]).Some? && Run(d, EMPTY, acts[..j]).Some?
    ensures var rows := TransitionsOf(l.transitions, a, rollout);
            && MovedAt(d, acts, i, rows, a, rollout, p) && MovedAt(d, acts, j, rows, a, rollout, n)
            && var w, w' := Run(d, EMPTY, acts[..i]).value, Run(d, EMPTY, acts[..j]).value;
               && TransitionLegal(d, w, rows[p]) && TransitionLegal(d, w', rows[n])
               && a in w.assignments && a in w'.assignments
               && rows[p].cohort.value.digest == d.cohortSha(RosterPin(w, a)) && RosterPin(w, a) == RosterPin(w', a)
    ensures forall k :: i <= k <= j ==>
              Run(d, EMPTY, acts[..k]).Some? && SameRoster(Run(d, EMPTY, acts[..i]).value, Run(d, EMPTY, acts[..k]).value, a)
  {
    hide Injective, Inv, TableInv, TransitionsOf, Grows, Run, PinnedCohort, RosterPin, CommittedAt, TransitionLegal;
    var rows := TransitionsOf(l.transitions, a, rollout);
    j := MoveWasCommitted(d, acts, l, a, rollout, n);
    var w' := Run(d, EMPTY, acts[..j]).value;
    GateAt(d, w', rows[n], rows[..n]);
    p := LatestCanary(d, rows, n);
    NotTheOpening(d, acts, l, a, rollout, p);
    i := MoveWasCommitted(d, acts[..j], w', a, rollout, p);
    assert acts[..j][..i] == acts[..i];
    assert rows[..n][p] == rows[p] && rows[..n][..p] == rows[..p];
    CommittedInPrefix(d, acts, j, i, AddTransition(rows[p]));
    var w := Run(d, EMPTY, acts[..i]).value;
    CanaryAt(d, w, rows[p]);
    assert RosterPin(w, a) == RosterPin(w', a);
    hide InjectiveCohorts;
    InvMeans(d, w);
    InvMeans(d, w');
    EqualPinsMeanSameRoster(d, w, w', a);
    forall k | i <= k <= j
      ensures Run(d, EMPTY, acts[..k]).Some? && SameRoster(w, Run(d, EMPTY, acts[..k]).value, a)
    {
      assert acts[..j][..k] == acts[..k] && acts[..k][..i] == acts[..i];
      EarlierLedger(d, acts[..j], k);
      EarlierLedger(d, acts[..k], i);
      RosterBetween(w, Run(d, EMPTY, acts[..k]).value, w', a);
    }
  }

  lemma NotTheOpening(d: Desk, acts: seq<Action>, l: Ledger, a: Id, rollout: Id, p: nat)
    requires Injective(d) && Run(d, EMPTY, acts) == Some(l) && p < |TransitionsOf(l.transitions, a, rollout)|
    requires TransitionsOf(l.transitions, a, rollout)[p].command.Some?
    ensures p >= 1
  {
    StreamsAreLegalPaths(d, acts, l, a, rollout);
    assert LegalMove(d, TransitionsOf(l.transitions, a, rollout), p);
  }

  lemma GateAt(d: Desk, l: Ledger, row: Transition, moves: seq<Transition>)
    requires TransitionLegal(d, l, row) && CohortGated(row.command.value) && moves == TransitionsOf(l.transitions, row.asg, row.rolloutId)
    ensures OpenAssignment(l, row.asg) && PinnedCohort(moves).Some?
    ensures row.cohortDigestAtGate == Some(PinnedCohort(moves).value.digest) == Some(d.cohortSha(RosterPin(l, row.asg)))
  {
  }

  lemma CanaryAt(d: Desk, l: Ledger, row: Transition)
    requires TransitionLegal(d, l, row) && row.command == Some(StartCanary)
    ensures OpenAssignment(l, row.asg) && row.cohort.Some? && row.cohort.value.digest == d.cohortSha(RosterPin(l, row.asg))
  {
  }

  /** Every promote row names a declaration whose required checks are each discharged
      by a passed run on the pinned candidate and digest, and whose candidate is an
      observed candidate of the assignment. */
  lemma PromotionHasEvidence(d: Desk, acts: seq<Action>, l: Ledger, t: Transition)
    requires Injective(d) && Run(d, EMPTY, acts) == Some(l) && t in l.transitions && t.command == Some(Promote)
    ensures DeclarationOf(l, t).Some?
    ensures var decl := DeclarationOf(l, t).value;
            && Evidence(l.runs, decl, decl.required, t.checks) && DistinctChecks(decl.required)
            && ObservedCandidate(l, t.asg, decl.candidate, decl.head)
  {
    ReachableInv(d, acts);
    assert GateEvidence(l, t);
    hide Evidence, RolloutsOf, ObservedCandidate;
    FoundInStream(l, t);
  }

  // ----------------------------------------------------- the shipped edge table

  function ShippedEdge(from: RolloutState, c: RolloutCommand): Option<RolloutState> {
    match (from, c)
    case (Declared, StartChecks) => Some(ChecksRunning)
    case (ChecksRunning, PassChecks) => Some(ChecksPassed)
    case (ChecksRunning, FailChecks) => Some(ChecksFailed)
    case (ChecksRunning, Hold) => Some(Held)
    case (ChecksPassed, ReadyCanary) => Some(CanaryReady)
    case (ChecksPassed, Hold) => Some(Held)
    case (ChecksFailed, Hold) => Some(Held)
    case (ChecksFailed, Rollback) => Some(RolledBack)
    case (CanaryReady, StartCanary) => Some(CanaryRunning)
    case (CanaryReady, Hold) => Some(Held)
    case (CanaryReady, Rollback) => Some(RolledBack)
    case (CanaryRunning, PassCanary) => Some(CanaryPassed)
    case (CanaryRunning, FailCanary) => Some(CanaryFailed)
    case (CanaryRunning, Hold) => Some(Held)
    case (CanaryPassed, Promote) => Some(Promoted)
    case (CanaryPassed, Hold) => Some(Held)
    case (CanaryPassed, Rollback) => Some(RolledBack)
    case (CanaryFailed, Hold) => Some(Held)
    case (CanaryFailed, Rollback) => Some(RolledBack)
    case (Held, Rollback) => Some(RolledBack)
    case (Held, CloseRollout) => Some(Closed)
    case (Promoted, CloseRollout) => Some(Closed)
    case (RolledBack, CloseRollout) => Some(Closed)
    case _ => None
  }

  /** Number of moves that lead to a state on the promotion path. */
  function Stage(s: RolloutState): Option<nat> {
    match s
    case Declared => Some(0) case ChecksRunning => Some(1) case ChecksPassed => Some(2) case CanaryReady => Some(3)
    case CanaryRunning => Some(4) case CanaryPassed => Some(5) case Promoted => Some(6)
    case _ => None
  }

  const PROMOTION_PATH: seq<RolloutCommand> := [StartChecks, PassChecks, ReadyCanary, StartCanary, PassCanary, Promote]

  lemma {:induction false} OnlyWayThere(d: Desk, rows: seq<Transition>, n: nat)
    requires forall s, c :: d.edge(s, c) == ShippedEdge(s, c)
    requires n < |rows| && (forall i :: 0 <= i <= n ==> LegalMove(d, rows, i)) && Stage(rows[n].to).Some?
    ensures Stage(rows[n].to) == Some(n)
    ensures forall i :: 1 <= i <= n ==> rows[i].command == Some(PROMOTION_PATH[i - 1])
  {
    assert LegalMove(d, rows, n);
    if n > 0 {
      assert d.edge(rows[n - 1].to, rows[n].command.value) == ShippedEdge(rows[n - 1].to, rows[n].command.value);
      OnlyWayThere(d, rows, n - 1);
    }
  }

  /** With the shipped table a rollout is promoted by one sequence of moves only:
      no check, canary or gate can be skipped, repeated or reordered. */
  lemma PromotionTakesEveryGate(d: Desk, acts: seq<Action>, l: Ledger, a: Id, rollout: Id, n: nat)
    requires forall s, c :: d.edge(s, c) == ShippedEdge(s, c)
    requires Injective(d) && Run(d, EMPTY, acts) == Some(l) && n < |TransitionsOf(l.transitions, a, rollout)|
    requires TransitionsOf(l.transitions, a, rollout)[n].to.Promoted?
    ensures var rows := TransitionsOf(l.transitions, a, rollout);
            n == |PROMOTION_PATH| && forall i :: 1 <= i <= n ==> rows[i].command == Some(PROMOTION_PATH[i - 1])
  {
    hide Run, LegalMove, Injective, TransitionsOf, RolloutsOf;
    StreamsAreLegalPaths(d, acts, l, a, rollout);
    OnlyWayThere(d, TransitionsOf(l.transitions, a, rollout), n);
  }
}
