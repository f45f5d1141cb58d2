/** The rollout machine: declarations, gated transitions, and their evidence. */
module DeskRollout {
  import opened Options
  import opened Streams
  import opened DeskLedger
  import opened DeskRules
  import opened DeskCommand

  function CandidateNamed(candidates: seq<Candidate>, a: Id, snapshot: Sha): Option<Candidate> {
    Find(candidates, (c: Candidate) => c.snapshot == snapshot && c.asg == a)
  }

  /** Each required check appears once and resolves to a definition of the scope at its pinned digest. */
  predicate RequiredResolve(l: Ledger, a: Id, scope: Id, required: seq<Required>) {
    && (forall i, j :: 0 <= i < j < |required| ==> required[i].checkId != required[j].checkId)
    && (forall r <- required :: exists def <- l.definitions ::
          def.asg == a && def.checkId == r.checkId && def.scopeId == scope && def.digest == r.digest)
  }

  function Opening(d: Desk, c: Command, owner: Seat): Transition
    requires c.DeclareRollout?
  {
    Transition(d.derive(TransitionId, [c.actor, c.asg, c.rolloutId, c.requestId, 0]), c.asg, c.rolloutId, c.requestId, 1,
               None, None, Declared, 1, owner.agent, None, None, [], [], None)
  }

  function DecideDeclareRollout(d: Desk, l: Ledger, c: Command): (o: Outcome)
    requires c.DeclareRollout?
    ensures o.Commit? ==> o.write.AddRollout?
  {
    var gate := OwnerGate(l, c.actor, true, c.asg, ActorMismatch, RolloutConflict);
    if gate.Denied? then Refused(gate.code)
    else if |l.rollouts| >= d.limits.rollouts then Refused(InvalidRecord)
    else
      var scope := Last(SortBy(ScopesOf(l.scopes, c.asg, c.scopeId), ScopeRevision));
      var candidate := CandidateNamed(l.candidates, c.asg, c.candidate);
      var stream := SortBy(RolloutsOf(l.rollouts, c.asg, c.rolloutId), RolloutRevision);
      var latest := Last(stream);
      if scope.None? then Refused(ScopeConflict)
      else if candidate.None? then Refused(CandidateDrift)
      else if scope.value.seatAgent.Some? && candidate.value.seatAgent != scope.value.seatAgent.value then Refused(CandidateDrift)
      else if c.head.Some? && candidate.value.head != c.head then Refused(CandidateDrift)
      else if !RequiredResolve(l, c.asg, c.scopeId, c.required) then Refused(InvalidRecord)
      else if latest.Some? && latest.value.scopeId != c.scopeId then Refused(ScopeConflict)
      else
        var revision := LastKey(stream, RolloutRevision) + 1;
        var row := Rollout(c.rolloutId, c.asg, c.scopeId, c.requestId, revision,
                           if latest.None? then None else Some(latest.value.revision), gate.tuple,
                           StructuralRevision(l.assignments[c.asg]), candidate.value.snapshot, candidate.value.head, c.required);
        Commit(AddRollout(row, if revision == 1 then Some(Opening(d, c, gate.tuple)) else None))
  }

  /** The fields a command carries: a cohort on start-canary, a target on rollback, neither otherwise. */
  datatype Carried = Malformed(code: Code) | Carried(cohort: Option<Cohort>, target: Option<(Sha, Option<Id>)>)

  function CarriedBy(d: Desk, l: Ledger, c: Command): Carried
    requires c.Move? && c.asg in l.assignments
  {
    if c.command.StartCanary? && |CohortNow(d, l, c.asg).members| > d.limits.cohort then Malformed(InvalidRecord)
    else if c.command.Rollback? then
      if c.target.None? then Malformed(InvalidRecord)
      else
        var target := CandidateNamed(l.candidates, c.asg, c.target.value);
        if target.None? then Malformed(CandidateDrift)
        else Carried(None, Some((target.value.snapshot, target.value.head)))
    else if c.command.StartCanary? then Carried(Some(CohortNow(d, l, c.asg)), None)
    else if c.target.Some? then Malformed(InvalidRecord)
    else Carried(None, None)
  }

  datatype Review = Unreviewed(code: Code) | Reviewed(discharged: seq<Id>)

  /** The standing approval must pin the current scope and brief and the declared candidate. */
  function ReviewGate(d: Desk, l: Ledger, c: Command, declaration: Rollout): Review
    requires c.Move?
  {
    if !ReviewGated(c.command) then Reviewed([])
    else
      var scope := Last(SortBy(ScopesOf(l.scopes, c.asg, declaration.scopeId), ScopeRevision));
      var approval := d.approval(l, c.asg, declaration.scopeId);
      if scope.None? then Unreviewed(ScopeConflict)
      else if scope.value.briefRevision != CurrentBrief(l, c.asg) then Unreviewed(ReviewIncomplete)
      else if approval.None? then Unreviewed(ReviewIncomplete)
      else if approval.value.scopeRevision != scope.value.revision then Unreviewed(ReviewIncomplete)
      else if approval.value.candidate != declaration.candidate || approval.value.head != declaration.head
      then Unreviewed(ReviewIncomplete)
      else Reviewed(approval.value.discharged)
  }

  function DecideMove(d: Desk, l: Ledger, c: Command): (o: Outcome)
    requires c.Move?
    ensures o.Commit? ==> o.write.AddTransition?
  {
    var gate := OwnerGate(l, c.actor, true, c.asg, ActorMismatch, RolloutConflict);
    if gate.Denied? then Refused(gate.code)
    else
      var declarations := SortBy(RolloutsOf(l.rollouts, c.asg, c.rolloutId), RolloutRevision);
      var moves := SortBy(TransitionsOf(l.transitions, c.asg, c.rolloutId), TransitionRevision);
      if declarations == [] then Refused(RolloutConflict)
      else
        var declaration := declarations[|declarations| - 1];
        if c.rolloutRevision != declaration.revision then Refused(RevisionConflict)
        else if moves == [] then Refused(RolloutConflict)
        else
          var from := moves[|moves| - 1].to;
          var edge := d.edge(from, c.command);
          if edge.None? then Refused(RolloutConflict)
          else if |l.transitions| >= d.limits.transitions then Refused(InvalidRecord)
          else
            var carried := CarriedBy(d, l, c);
            var checks := if CheckGated(c.command) then Discharges(l.runs, declaration, declaration.required) else Some([]);
            var reviews := ReviewGate(d, l, c, declaration);
            var pinned := PinnedCohort(moves);
            var current := CohortNow(d, l, c.asg);
            if carried.Malformed? then Refused(carried.code)
            else if checks.None? then Refused(CheckIncomplete)
            else if reviews.Unreviewed? then Refused(reviews.code)
            else if CohortGated(c.command) && (pinned.None? || current.digest != pinned.value.digest) then Refused(CohortDrift)
            else
              Commit(AddTransition(Transition(
                d.derive(TransitionId, [c.actor, c.asg, c.rolloutId, c.requestId, 1]), c.asg, c.rolloutId, c.requestId,
                LastKey(moves, TransitionRevision) + 1, Some(c.command), Some(from), edge.value, c.rolloutRevision, c.actor,
                carried.cohort, carried.target, checks.value, reviews.discharged,
                if CohortGated(c.command) then Some(current.digest) else None)))
  }

  /** The loop over a transition stream for the cohort its latest start-canary pinned. */
  method FindPinnedCohort(stream: seq<Transition>) returns (pinned: Option<Cohort>)
    ensures pinned == PinnedCohort(stream)
    ensures pinned.None? <==> forall row <- stream :: row.command == Some(StartCanary) ==> row.cohort.None?
  {
    pinned := None;
    for i := 0 to |stream|
      invariant pinned == PinnedCohort(stream[..i])
      invariant pinned.None? <==> forall row <- stream[..i] :: row.command == Some(StartCanary) ==> row.cohort.None?
    {
      assert stream[..i + 1] == stream[..i] + [stream[i]];
      if stream[i].command == Some(StartCanary) && stream[i].cohort.Some? {
        pinned := stream[i].cohort;
      }
    }
    assert stream[..|stream|] == stream;
  }

  lemma {:induction false} MissingCheck(runs: seq<CheckRun>, decl: Rollout, required: seq<Required>, n: nat)
    requires n <= |required| && Discharges(runs, decl, required[..n]).None?
    ensures Discharges(runs, decl, required).None?
    decreases |required|
  {
    if n == |required| {
      assert required[..n] == required;
    } else {
      assert required[..|required| - 1][..n] == required[..n];
      MissingCheck(runs, decl, required[..|required| - 1], n);
    }
  }

  /** The loop that resolves every required check, or none of them. */
  method ResolveCheckDischarges(runs: seq<CheckRun>, decl: Rollout) returns (discharged: Option<seq<Discharge>>)
    ensures discharged == Discharges(runs, decl, decl.required)
    ensures discharged.None? <==> exists required <- decl.required :: Qualifying(runs, decl, required) == []
  {
    hide Qualifying;
    var found: seq<Discharge> := [];
    for i := 0 to |decl.required|
      invariant Discharges(runs, decl, decl.required[..i]) == Some(found)
      invariant forall required <- decl.required[..i] :: Qualifying(runs, decl, required) != []
    {
      var required := decl.required[i];
      assert decl.required[..i + 1] == decl.required[..i] + [required];
      assert decl.required[..i + 1][..i] == decl.required[..i];
      var candidates := SortBy(Qualifying(runs, decl, required), Attempt);
      LastIsMember(Qualifying(runs, decl, required), Attempt);
      if candidates == [] {
        MissingCheck(runs, decl, decl.required, i + 1);
        assert required in decl.required;
        return None;
      }
      found := found + [Discharge(required.checkId, candidates[|candidates| - 1].runId)];
    }
    assert decl.required[..|decl.required|] == decl.required;
    return Some(found);
  }

  lemma DeclareRolloutIsLegal(d: Desk, l: Ledger, c: Command)
    requires Ordered(l) && c.DeclareRollout? && DecideDeclareRollout(d, l, c).Commit?
    ensures Legal(d, l, DecideDeclareRollout(d, l, c).write)
  {
    hide Owns, Ordered, RolloutsOf, TransitionsOf, SortBy, ScopesOf, OwnerGate, CandidateNamed;
    RolloutIsRead(l, c.asg, c.rolloutId);
    NamedCandidateIsObserved(l, c.asg, c.candidate);
    var row := DecideDeclareRollout(d, l, c).write.rollout;
    forall required | required in row.required
      ensures Resolved(l, row.asg, row.scopeId, required)
    {
    }
  }

  lemma NamedCandidateIsObserved(l: Ledger, a: Id, snapshot: Sha)
    ensures var c := CandidateNamed(l.candidates, a, snapshot);
            c.Some? ==> c.value.snapshot == snapshot && ObservedCandidate(l, a, snapshot, c.value.head)
  {
    var c := CandidateNamed(l.candidates, a, snapshot);
    assert c.Some? ==> c.value in l.candidates;
  }

  lemma CarriedIsObserved(d: Desk, l: Ledger, c: Command)
    requires c.Move? && c.asg in l.assignments && CarriedBy(d, l, c).Carried?
    ensures var carried := CarriedBy(d, l, c);
            && carried.cohort == (if c.command.StartCanary? then Some(CohortNow(d, l, c.asg)) else None)
            && (carried.target.Some? <==> c.command.Rollback?)
            && (carried.target.Some? ==> ObservedCandidate(l, c.asg, carried.target.value.0, carried.target.value.1))
  {
    hide CohortNow, ObservedCandidate, CandidateNamed;
    if c.command.Rollback? {
      NamedCandidateIsObserved(l, c.asg, c.target.value);
    }
  }

  lemma MoveIsLegal(d: Desk, l: Ledger, c: Command)
    requires Ordered(l) && c.Move? && DecideMove(d, l, c).Commit?
    ensures Legal(d, l, DecideMove(d, l, c).write)
  {
    hide Ordered, RolloutsOf, TransitionsOf, SortBy, CarriedBy, Discharges, PinnedCohort, ObservedCandidate, ScopesOf, OwnerGate;
    RolloutIsRead(l, c.asg, c.rolloutId);
    CarriedIsObserved(d, l, c);
  }
}
