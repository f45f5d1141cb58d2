/** The store: idempotent atomic transactions over the ledger, interleaved with
    commits of commands that lie outside this model. */
module DeskStore {
  import opened Options
  import opened Streams
  import opened DeskLedger
  import opened DeskRules
  import opened DeskCommand
  import opened DeskOwnership
  import opened DeskAssignment
  import opened DeskCheckRunner
  import opened DeskRollout
  import opened DeskHandback

  function Decide(d: Desk, l: Ledger, c: Command): Outcome {
    match c
    case Register(_, _, _) => DecideRegister(d, l, c)
    case Attach(_, _, _, _) => DecideAttach(d, l, c)
    case Close(_, _, _) => DecideClose(d, l, c)
    case SubmitHandback(_, _, _, _, _) => DecideSubmit(d, l, c)
    case ObserveHandback(_, _, _, _, _) => DecideObserve(d, l, c)
    case OfferCustody(_, _, _, _, _, _) => DecideOffer(d, l, c)
    case AcceptCustody(_, _, _, _, _, _, _, _, _) => DecideAccept(d, l, c)
    case Amend(_, _, _, _, _) => DecideAmend(d, l, c)
    case AppendDecision(_, _, _, _, _, _) => DecideDecision(d, l, c)
    case DeclareCheck(_, _, _, _, _, _, _) => DecideDeclareCheck(d, l, c)
    case CommitRun(_, _, _, _, _, _, _, _, _, _, _) => DecideCommitRun(d, l, c)
    case DeclareRollout(_, _, _, _, _, _, _, _) => DecideDeclareRollout(d, l, c)
    case Move(_, _, _, _, _, _, _) => DecideMove(d, l, c)
  }

  /** Whatever a command decides to write is legal at that moment. */
  lemma DecisionsAreLegal(d: Desk, l: Ledger, c: Command)
    requires Ordered(l) && Decide(d, l, c).Commit?
    ensures Legal(d, l, Decide(d, l, c).write)
  {
    hide Ordered, Legal;
    match c
    case Register(_, _, _) => RegistrationIsLegal(d, l, c);
    case Attach(_, _, _, _) => AttachIsLegal(d, l, c);
    case Close(_, _, _) => CloseIsLegal(d, l, c);
    case SubmitHandback(_, _, _, _, _) => SubmitIsLegal(d, l, c);
    case ObserveHandback(_, _, _, _, _) => ObserveIsLegal(d, l, c);
    case OfferCustody(_, _, _, _, _, _) => OfferIsLegal(d, l, c);
    case AcceptCustody(_, _, _, _, _, _, _, _, _) => AcceptIsLegal(d, l, c);
    case Amend(_, _, _, _, _) => AmendIsLegal(d, l, c);
    case AppendDecision(_, _, _, _, _, _) => DecisionIsLegal(d, l, c);
    case DeclareCheck(_, _, _, _, _, _, _) => DeclareCheckIsLegal(d, l, c);
    case CommitRun(_, _, _, _, _, _, _, _, _, _, _) => CommitRunIsLegal(d, l, c);
    case DeclareRollout(_, _, _, _, _, _, _, _) => DeclareRolloutIsLegal(d, l, c);
    case Move(_, _, _, _, _, _, _) => MoveIsLegal(d, l, c);
  }

  lemma RowsCarryTheirRequest(d: Desk, l: Ledger, c: Command)
    requires Decide(d, l, c).Commit?
    ensures RowKey(Decide(d, l, c).write).Some? ==> RowKey(Decide(d, l, c).write).value == KeyOf(c)
  {
    hide DecideRegister, DecideAttach, DecideClose, DecideSubmit, DecideObserve, DecideOffer, DecideAccept;
    hide DecideAmend, DecideDecision, DecideDeclareCheck, DecideCommitRun, DecideDeclareRollout, DecideMove;
  }

  lemma RunRecords(d: Desk, l: Ledger, c: Command)
    requires c.CommitRun? && DecideCommitRun(d, l, c).Commit?
    ensures Records(c, DecideCommitRun(d, l, c).write)
  {
    hide OwnerGate, CheckRunEligibility;
  }

  lemma MoveRecords(d: Desk, l: Ledger, c: Command)
    requires c.Move? && DecideMove(d, l, c).Commit?
    ensures Records(c, DecideMove(d, l, c).write)
  {
    hide SortBy, ReviewGate, Discharges, PinnedCohort, RolloutsOf, TransitionsOf, CohortNow;
    if c.command.Rollback? && c.target.Some? { NamedCandidateIsObserved(l, c.asg, c.target.value); }
    hide CandidateNamed, OwnerGate;
  }

  lemma DeclarationRecords(d: Desk, l: Ledger, c: Command)
    requires c.DeclareRollout? && DecideDeclareRollout(d, l, c).Commit?
    ensures Records(c, DecideDeclareRollout(d, l, c).write)
  {
    NamedCandidateIsObserved(l, c.asg, c.candidate);
    hide SortBy, RolloutsOf, ScopesOf, RequiredResolve, CandidateNamed;
  }

  lemma RecordRecords(d: Desk, l: Ledger, c: Command)
    requires (c.Amend? || c.AppendDecision? || c.DeclareCheck?) && Decide(d, l, c).Commit?
    ensures Records(c, Decide(d, l, c).write)
  {
    hide SortBy, BriefsOf, DecisionsOf, DefinitionsOf, CurrentBrief;
  }

  lemma CustodyRecords(d: Desk, l: Ledger, c: Command)
    requires (c.OfferCustody? || c.AcceptCustody?) && Decide(d, l, c).Commit?
    ensures Records(c, Decide(d, l, c).write)
  {
    hide EffectiveOwner, BriefsOf;
  }

  lemma HandbackRecords(d: Desk, l: Ledger, c: Command)
    requires (c.Register? || c.Attach? || c.Close? || c.SubmitHandback? || c.ObserveHandback?) && Decide(d, l, c).Commit?
    ensures Records(c, Decide(d, l, c).write)
  {
    hide EffectiveOwner, HandbacksOf, MaxRevision;
  }

  /** Whatever is committed records what was asked: the actor, the request and the
      claimed contents of a row are those of its command. */
  lemma WritesRecordTheirCommand(d: Desk, l: Ledger, c: Command)
    requires Decide(d, l, c).Commit?
    ensures Records(c, Decide(d, l, c).write)
  {
    hide Records, DecideMove, DecideCommitRun, DecideDeclareRollout;
    match c
    case CommitRun(_, _, _, _, _, _, _, _, _, _, _) => RunRecords(d, l, c);
    case Move(_, _, _, _, _, _, _) => MoveRecords(d, l, c);
    case DeclareRollout(_, _, _, _, _, _, _, _) => DeclarationRecords(d, l, c);
    case Amend(_, _, _, _, _) => RecordRecords(d, l, c);
    case AppendDecision(_, _, _, _, _, _) => RecordRecords(d, l, c);
    case DeclareCheck(_, _, _, _, _, _, _) => RecordRecords(d, l, c);
    case OfferCustody(_, _, _, _, _, _) => CustodyRecords(d, l, c);
    case AcceptCustody(_, _, _, _, _, _, _, _, _) => CustodyRecords(d, l, c);
    case _ => HandbackRecords(d, l, c);
  }

  datatype Reply =
    | Replayed(recorded: Recorded)
    | IdempotencyConflict
    | TableFull
    | Fresh(outcome: Outcome)

  /** Idempotency precedes every other guard. */
  function Answer(d: Desk, l: Ledger, c: Command): Reply {
    var key := KeyOf(c);
    if key in l.requests then
      if l.requests[key].Recorded? && l.requests[key].command == c then Replayed(l.requests[key]) else IdempotencyConflict
    else if |l.requests| >= d.limits.requests then TableFull
    else Fresh(Decide(d, l, c))
  }

  /** A recorded rejection also takes a revision; a replay or a conflict changes nothing. */
  function Transact(d: Desk, l: Ledger, c: Command): Ledger {
    var reply := Answer(d, l, c);
    if !reply.Fresh? then l
    else
      var written := if reply.outcome.Commit? then Apply(l, reply.outcome.write) else l;
      written.(revision := l.revision + 1, requests := l.requests[KeyOf(c) := Recorded(c, reply.outcome, l.revision + 1)])
  }

  /** `Other` is the commit of any command outside the model: memberships and
      scopes change arbitrarily. `Declined` is a commit that the store refuses
      without recording it. */
  datatype Action =
    | Submit(command: Command)
    | Other(members: seq<Member>, scopes: seq<Scope>, key: RequestKey)
    | Declined(command: Command)

  predicate Enabled(l: Ledger, a: Action) {
    a.Other? ==> a.key !in l.requests
  }

  function Next(d: Desk, l: Ledger, a: Action): Ledger {
    match a
    case Submit(c) => Transact(d, l, c)
    case Other(members, scopes, key) =>
      l.(members := members, scopes := scopes, revision := l.revision + 1, requests := l.requests[key := Foreign(l.revision + 1)])
    case Declined(_) => l
  }

  const EMPTY := Ledger(0, [], [], map[], [], [], [], [], [], [], [], [], [], [], map[])

  /** The ledger after a run of actions, if each of them was possible. */
  function Run(d: Desk, start: Ledger, acts: seq<Action>): Option<Ledger> {
    if acts == [] then Some(start)
    else
      match Run(d, start, acts[..|acts| - 1])
      case None => None
      case Some(l) => if Enabled(l, acts[|acts| - 1]) then Some(Next(d, l, acts[|acts| - 1])) else None
  }

  lemma {:induction false} RunSplits(d: Desk, start: Ledger, acts: seq<Action>, more: seq<Action>)
    ensures Run(d, start, acts + more) ==
            match Run(d, start, acts) case None => None case Some(l) => Run(d, l, more)
    decreases |more|
  {
    if more == [] {
      assert acts + more == acts;
    } else {
      assert (acts + more)[..|acts + more| - 1] == acts + more[..|more| - 1];
      RunSplits(d, start, acts, more[..|more| - 1]);
    }
  }

  // --------------------------------------------------- appends and streams

  lemma AcceptsAppend(rows: seq<Accept>, row: Accept, a: Id)
    ensures AcceptsOf(rows + [row], a) ==
            if row.asg == a then AcceptsOf(rows, a) + [row] else AcceptsOf(rows, a)
  {
    FilterAppend(rows, row, (r: Accept) => r.asg == a);
  }

  lemma BriefsAppend(rows: seq<Brief>, row: Brief, a: Id)
    ensures BriefsOf(rows + [row], a) ==
            if row.entry.asg == a then BriefsOf(rows, a) + [row] else BriefsOf(rows, a)
  {
    FilterAppend(rows, row, (r: Brief) => r.entry.asg == a);
  }

  lemma DecisionsAppend(rows: seq<Decision>, row: Decision, a: Id)
    ensures DecisionsOf(rows + [row], a) ==
            if row.entry.asg == a then DecisionsOf(rows, a) + [row] else DecisionsOf(rows, a)
  {
    FilterAppend(rows, row, (r: Decision) => r.entry.asg == a);
  }

  lemma DefinitionsAppend(rows: seq<Definition>, row: Definition, a: Id, check: Id)
    ensures DefinitionsOf(rows + [row], a, check) ==
            if row.asg == a && row.checkId == check then DefinitionsOf(rows, a, check) + [row] else DefinitionsOf(rows, a, check)
  {
    FilterAppend(rows, row, (r: Definition) => r.asg == a && r.checkId == check);
  }

  lemma RunsAppend(rows: seq<CheckRun>, row: CheckRun, a: Id, rollout: Id, check: Id, candidate: Sha)
    ensures RunsOf(rows + [row], a, rollout, check, candidate) ==
            if row.asg == a && row.rolloutId == rollout && row.checkId == check && row.candidate == candidate
            then RunsOf(rows, a, rollout, check, candidate) + [row]
            else RunsOf(rows, a, rollout, check, candidate)
  {
    FilterAppend(rows, row, (r: CheckRun) => r.asg == a && r.rolloutId == rollout && r.checkId == check && r.candidate == candidate);
  }

  lemma RolloutsAppend(rows: seq<Rollout>, row: Rollout, a: Id, rollout: Id)
    ensures RolloutsOf(rows + [row], a, rollout) ==
            if row.asg == a && row.rolloutId == rollout then RolloutsOf(rows, a, rollout) + [row] else RolloutsOf(rows, a, rollout)
  {
    FilterAppend(rows, row, (r: Rollout) => r.asg == a && r.rolloutId == rollout);
  }

  lemma TransitionsAppend(rows: seq<Transition>, row: Transition, a: Id, rollout: Id)
    ensures TransitionsOf(rows + [row], a, rollout) ==
            if row.asg == a && row.rolloutId == rollout then TransitionsOf(rows, a, rollout) + [row] else TransitionsOf(rows, a, rollout)
  {
    FilterAppend(rows, row, (r: Transition) => r.asg == a && r.rolloutId == rollout);
  }

  lemma HandbacksAppend(rows: seq<Handback>, row: Handback, a: Id, agent: Id)
    ensures HandbacksOf(rows + [row], a, agent) ==
            if row.asg == a && row.agent == agent then HandbacksOf(rows, a, agent) + [row] else HandbacksOf(rows, a, agent)
  {
    FilterAppend(rows, row, (r: Handback) => r.asg == a && r.agent == agent);
  }

  /** Observations keep the number and identity of every handback of a stream. */
  lemma {:induction false} HandbacksObserved(rows: seq<Handback>, w: Write, a: Id, agent: Id)
    requires w.Observe?
    ensures var before, after := HandbacksOf(rows, a, agent), HandbacksOf(ObservedAll(rows, w), a, agent);
            |after| == |before| && forall i :: 0 <= i < |before| ==> after[i] == Observed(before[i], w)
  {
    if rows != [] {
      var init, last := rows[..|rows| - 1], rows[|rows| - 1];
      HandbacksObserved(init, w, a, agent);
      assert rows == init + [last];
      assert ObservedAll(rows, w) == ObservedAll(init, w) + [Observed(last, w)];
      HandbacksAppend(init, last, a, agent);
      HandbacksAppend(ObservedAll(init, w), Observed(last, w), a, agent);
    }
  }
}
