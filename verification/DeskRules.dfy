/** What holds at the moment a command's write is committed.  Every decision is
    shown to produce only legal writes; the invariants are proved from this. */
module DeskRules {
  import opened Options
  import opened Streams
  import opened DeskLedger

  /** `tuple` is the live effective owner of an open assignment. */
  ghost predicate Owns(l: Ledger, a: Id, tuple: Seat) {
    && a in l.assignments && l.assignments[a].open
    && EffectiveOwner(l, a).tuple == tuple
    && IsLive(l, tuple)
  }

  predicate IsLive(l: Ledger, tuple: Seat) {
    var m := LiveMember(l.members, tuple.agent);
    m.Some? && m.value.membership == tuple.membership
  }

  /** A live member with the lead role. */
  predicate IsLead(l: Ledger, tuple: Seat) {
    IsLive(l, tuple) && LiveMember(l.members, tuple.agent).value.role.Lead?
  }

  predicate OpenAssignment(l: Ledger, a: Id) {
    a in l.assignments && l.assignments[a].open
  }

  /** The digest input for the roster as it stands. */
  function RosterPin(l: Ledger, a: Id): CohortPin
    requires a in l.assignments
  {
    var asg, owner := l.assignments[a], EffectiveOwner(l, a);
    var members := {owner.tuple.agent} + AgentsOf(asg.seats);
    if owner.revision == 0 then LegacyPin(members, StructuralRevision(asg))
    else OwnedPin(members, StructuralRevision(asg), owner.revision)
  }

  function CohortNow(d: Desk, l: Ledger, a: Id): Cohort
    requires a in l.assignments
  {
    var pin := RosterPin(l, a);
    Cohort(pin.members, d.cohortSha(pin), pin.assignmentRevision, EffectiveOwner(l, a).revision)
  }

  /** The cohort of the latest start-canary row. */
  function PinnedCohort(stream: seq<Transition>): Option<Cohort> {
    if stream == [] then None
    else
      var row := stream[|stream| - 1];
      if row.command == Some(StartCanary) && row.cohort.Some? then row.cohort else PinnedCohort(stream[..|stream| - 1])
  }

  /** A passed run that discharges a required check of a declaration. */
  predicate Qualifies(r: CheckRun, decl: Rollout, required: Required) {
    && r.asg == decl.asg && r.rolloutId == decl.rolloutId && r.checkId == required.checkId
    && r.status.Passed? && r.candidate == decl.candidate && r.definitionDigest == required.digest
  }

  function Qualifying(runs: seq<CheckRun>, decl: Rollout, required: Required): seq<CheckRun> {
    Filter(runs, (r: CheckRun) => Qualifies(r, decl, required))
  }

  /** For every required check the latest qualifying run, or None if one is missing. */
  function Discharges(runs: seq<CheckRun>, decl: Rollout, required: seq<Required>): Option<seq<Discharge>> {
    if required == [] then Some([])
    else
      var last := required[|required| - 1];
      var latest := Last(SortBy(Qualifying(runs, decl, last), Attempt));
      match Discharges(runs, decl, required[..|required| - 1])
      case None => None
      case Some(before) => if latest.None? then None else Some(before + [Discharge(last.checkId, latest.value.runId)])
  }

  predicate CheckGated(c: RolloutCommand) { c.PassChecks? || c.Promote? }
  predicate CohortGated(c: RolloutCommand) { c.PassCanary? || c.Promote? }
  predicate ReviewGated(c: RolloutCommand) { c.Promote? }

  /** The request key that a row was committed under. */
  function RowKey(w: Write): Option<RequestKey> {
    match w
    case AddOffer(row) => Some(RequestKey(row.from.agent, Some(row.asg), row.requestId))
    case AddHandback(row) => Some(RequestKey(row.agent, Some(row.asg), row.requestId))
    case _ => None
  }

  /** A write records what its command asked for, under the command's own request. */
  predicate Records(c: Command, w: Write) {
    match w
    case Nothing => c.Attach? || c.Close? || c.ObserveHandback?
    case AddAssignment(_, row) => c.Register? && row.owner.agent == c.actor && row.content == c.content
    case AddSeat(a, seat) => c.Attach? && a == c.asg && seat.agent == c.agent
    case CloseAssignment(a) => c.Close? && a == c.asg
    case AddHandback(row) =>
      c.SubmitHandback? && row.agent == c.actor && row.asg == c.asg && row.requestId == c.requestId
      && row.record == c.record && row.claimed == c.candidateId
    case Observe(id, observed, _, _) => c.ObserveHandback? && id == c.handbackId && observed.repository == c.capture.repository
    case AddOffer(row) =>
      c.OfferCustody? && row.from.agent == c.actor && row.asg == c.asg && row.requestId == c.requestId
      && row.to == c.nominee && row.content == c.content
    case AddAccept(row) =>
      c.AcceptCustody? && row.to.agent == c.actor && row.asg == c.asg && row.requestId == c.requestId
      && row.offerId == c.offerId && row.settled == c.settled && row.content == c.content
    case AddBrief(row) =>
      c.Amend? && row.entry.actor.agent == c.actor && row.entry.asg == c.asg && row.entry.requestId == c.requestId && row.entry.body == c.body
    case AddDecision(row) =>
      c.AppendDecision? && row.entry.actor.agent == c.actor && row.entry.asg == c.asg && row.entry.requestId == c.requestId
      && row.entry.affected == c.affected && row.entry.body == c.body
    case AddDefinition(row) =>
      c.DeclareCheck? && row.owner.agent == c.actor && row.asg == c.asg && row.requestId == c.requestId
      && row.scopeId == c.scopeId && row.checkId == c.checkId && row.digest == c.digest && row.maxRetries == c.maxRetries
    case AddRun(row) =>
      c.CommitRun? && row.actor.agent == c.actor && row.asg == c.asg && row.requestId == c.requestId
      && row.rolloutId == c.rolloutId && row.checkId == c.checkId && row.status == c.status && row.evidence == c.evidence
    case AddRollout(row, _) =>
      c.DeclareRollout? && row.owner.agent == c.actor && row.asg == c.asg && row.requestId == c.requestId
      && row.scopeId == c.scopeId && row.rolloutId == c.rolloutId && row.candidate == c.candidate && row.required == c.required
      && (c.head.Some? ==> row.head == c.head)
    case AddTransition(row) =>
      c.Move? && row.actor == c.actor && row.asg == c.asg && row.requestId == c.requestId
      && row.rolloutId == c.rolloutId && row.command == Some(c.command) && row.rolloutRevision == c.rolloutRevision
      && (c.command.Rollback? ==> row.target.Some? && Some(row.target.value.0) == c.target)
  }

  /** Streams are numbered in table order. */
  ghost predicate Ordered(l: Ledger) {
    && (forall a: Id :: Numbered(AcceptsOf(l.accepts, a), AcceptRevision))
    && (forall a: Id :: Numbered(BriefsOf(l.briefs, a), BriefRevision))
    && (forall a: Id :: Numbered(DecisionsOf(l.decisions, a), DecisionRevision))
    && (forall a: Id, check: Id :: Numbered(DefinitionsOf(l.definitions, a, check), DefinitionRevision))
    && (forall a: Id, rollout: Id, check: Id, candidate: Sha ::
          Numbered(RunsOf(l.runs, a, rollout, check, candidate), Attempt))
    && (forall a: Id, rollout: Id :: Numbered(RolloutsOf(l.rollouts, a, rollout), RolloutRevision))
    && (forall a: Id, rollout: Id :: Numbered(TransitionsOf(l.transitions, a, rollout), TransitionRevision))
    && (forall a: Id, agent: Id :: Numbered(HandbacksOf(l.handbacks, a, agent), HandbackRevision))
  }

  ghost predicate OfferLegal(d: Desk, l: Ledger, row: Offer) {
    && Owns(l, row.asg, row.from)
    && row.revision == EffectiveOwner(l, row.asg).revision
    && row.offerId == d.derive(OfferId, [row.from.agent, row.asg, row.requestId])
    && IsLead(l, row.from) && IsLead(l, row.to) && row.from != row.to
  }

  ghost predicate AcceptLegal(d: Desk, l: Ledger, row: Accept) {
    && OpenAssignment(l, row.asg) && IsLead(l, row.to)
    && row.revision == EffectiveOwner(l, row.asg).revision + 1
    && (exists o <- l.offers :: o.offerId == row.offerId && o.asg == row.asg && o.from == row.from && o.to == row.to
          && o.revision + 1 == row.revision)
    && (forall r <- l.accepts :: r.offerId != row.offerId)
    && row.ledgerRevision == l.revision && row.briefRevision == |BriefsOf(l.briefs, row.asg)|
  }

  ghost predicate BriefLegal(d: Desk, l: Ledger, row: Brief) {
    var stream := BriefsOf(l.briefs, row.entry.asg);
    && Owns(l, row.entry.asg, row.entry.actor)
    && row.entry.revision == |stream| + 1 && row.entry.priorRevision == |stream|
    && row.entry.prior == (if stream == [] then None else Some(stream[|stream| - 1].sha))
    && row.sha == d.briefSha(row.entry)
  }

  ghost predicate DecisionLegal(d: Desk, l: Ledger, row: Decision) {
    var stream := DecisionsOf(l.decisions, row.entry.asg);
    && Owns(l, row.entry.asg, row.entry.actor)
    && row.entry.revision == |stream| + 1
    && row.entry.prior == (if stream == [] then None else Some(stream[|stream| - 1].sha))
    && row.entry.priorId == (if stream == [] then None else Some(stream[|stream| - 1].entry.decisionId))
    && 1 <= row.entry.affected == |BriefsOf(l.briefs, row.entry.asg)|
    && row.sha == d.decisionSha(row.entry)
  }

  ghost predicate DefinitionLegal(d: Desk, l: Ledger, row: Definition) {
    var stream := DefinitionsOf(l.definitions, row.asg, row.checkId);
    && Owns(l, row.asg, row.owner) && IsLead(l, row.owner)
    && row.revision == |stream| + 1
    && row.prior == (if stream == [] then None else Some(|stream|))
    && (stream != [] ==> stream[|stream| - 1].scopeId == row.scopeId)
    && row.maxRetries <= 1
  }

  ghost predicate RunLegal(d: Desk, l: Ledger, row: CheckRun) {
    var decls := RolloutsOf(l.rollouts, row.asg, row.rolloutId);
    var defs := DefinitionsOf(l.definitions, row.asg, row.checkId);
    var moves := TransitionsOf(l.transitions, row.asg, row.rolloutId);
    var prior := RunsOf(l.runs, row.asg, row.rolloutId, row.checkId, row.candidate);
    && Owns(l, row.asg, row.actor) && IsLead(l, row.actor)
    && decls != [] && defs != [] && moves != []
    && row.rolloutRevision == |decls| && row.candidate == decls[|decls| - 1].candidate && row.head == decls[|decls| - 1].head
    && row.definitionRevision == |defs| && row.definitionDigest == defs[|defs| - 1].digest
    && defs[|defs| - 1].scopeId == decls[|decls| - 1].scopeId
    && moves[|moves| - 1].to.ChecksRunning?
    && row.attempt == |prior| + 1
    && row.retryOf == (if prior == [] then None else Some(prior[|prior| - 1].runId))
    && (forall r <- prior :: !r.status.Passed?)
    && (prior != [] ==> prior[0].definitionRevision == row.definitionRevision && |prior| < 1 + defs[|defs| - 1].maxRetries)
  }

  ghost predicate Resolved(l: Ledger, a: Id, scope: Id, required: Required) {
    exists def <- l.definitions :: def.asg == a && def.checkId == required.checkId && def.scopeId == scope && def.digest == required.digest
  }

  ghost predicate ObservedCandidate(l: Ledger, a: Id, snapshot: Sha, head: Option<Id>) {
    exists c <- l.candidates :: c.snapshot == snapshot && c.asg == a && c.head == head
  }

  ghost predicate RolloutLegal(d: Desk, l: Ledger, row: Rollout, opening: Option<Transition>) {
    var stream := RolloutsOf(l.rollouts, row.asg, row.rolloutId);
    && Owns(l, row.asg, row.owner) && IsLead(l, row.owner)
    && row.revision == |stream| + 1
    && row.prior == (if stream == [] then None else Some(|stream|))
    && (stream != [] ==> stream[|stream| - 1].scopeId == row.scopeId)
    && ObservedCandidate(l, row.asg, row.candidate, row.head)
    && (forall i, j :: 0 <= i < j < |row.required| ==> row.required[i].checkId != row.required[j].checkId)
    && (forall required <- row.required :: Resolved(l, row.asg, row.scopeId, required))
    && (opening.Some? <==> stream == [])
    && (opening.Some? ==>
          var t := opening.value;
          && t.asg == row.asg && t.rolloutId == row.rolloutId && t.revision == 1 && t.rolloutRevision == 1
          && t.command == None && t.from == None && t.to == Declared && t.actor == row.owner.agent
          && t.cohort == None && t.target == None && t.checks == [] && t.reviews == [] && t.cohortDigestAtGate == None)
  }

  ghost predicate TransitionLegal(d: Desk, l: Ledger, row: Transition) {
    var decls := RolloutsOf(l.rollouts, row.asg, row.rolloutId);
    var moves := TransitionsOf(l.transitions, row.asg, row.rolloutId);
    && OpenAssignment(l, row.asg)
    && EffectiveOwner(l, row.asg).tuple.agent == row.actor && IsLead(l, EffectiveOwner(l, row.asg).tuple)
    && decls != [] && moves != [] && row.command.Some?
    && row.rolloutRevision == |decls|
    && row.revision == |moves| + 1 && row.from == Some(moves[|moves| - 1].to)
    && d.edge(moves[|moves| - 1].to, row.command.value) == Some(row.to)
    && GatesPassed(d, l, row, decls[|decls| - 1], moves)
  }

  /** The evidence a transition row carries, gate by gate. */
  ghost predicate GatesPassed(d: Desk, l: Ledger, row: Transition, decl: Rollout, moves: seq<Transition>)
    requires row.command.Some? && row.asg in l.assignments
  {
    var c := row.command.value;
    && row.cohort == (if c.StartCanary? then Some(CohortNow(d, l, row.asg)) else None)
    && (if CheckGated(c) then Discharges(l.runs, decl, decl.required) == Some(row.checks) else row.checks == [])
    && (if CohortGated(c) then
          && PinnedCohort(moves).Some? && PinnedCohort(moves).value.digest == d.cohortSha(RosterPin(l, row.asg))
          && row.cohortDigestAtGate == Some(d.cohortSha(RosterPin(l, row.asg)))
        else row.cohortDigestAtGate == None)
    && (if ReviewGated(c) then
          var approval := d.approval(l, row.asg, decl.scopeId);
          && approval.Some? && approval.value.candidate == decl.candidate && approval.value.head == decl.head
          && row.reviews == approval.value.discharged
        else row.reviews == [])
    && (row.target.Some? <==> c.Rollback?)
    && (row.target.Some? ==> ObservedCandidate(l, row.asg, row.target.value.0, row.target.value.1))
  }

  ghost predicate HandbackLegal(d: Desk, l: Ledger, row: Handback) {
    && OpenAssignment(l, row.asg)
    && row.agent in AgentsOf(l.assignments[row.asg].seats)
    && row.handbackId == d.derive(HandbackId, [row.agent, row.asg, row.requestId])
    && row.revision == |HandbacksOf(l.handbacks, row.asg, row.agent)| + 1
    && row.observed.Pending?
  }

  ghost predicate ObserveLegal(d: Desk, l: Ledger, w: Write)
    requires w.Observe?
  {
    exists h <- l.handbacks ::
      && h.handbackId == w.handbackId && h.observed.Pending? && !w.observed.Pending?
      && w.observed.repository == h.observed.repository
      && (w.captured.Some? <==> w.observed.Captured?)
      && (w.captured.Some? ==>
            var c := w.captured.value;
            && w.gaps == h.gaps
            && w.observed.candidateId == c.candidateId == d.derive(CandidateId, [h.handbackId])
            && c.asg == h.asg && c.seatAgent == h.agent && c.seatMembership == h.seatMembership && c.repository == h.observed.repository)
  }

  ghost predicate Legal(d: Desk, l: Ledger, w: Write) {
    match w
    case Nothing => true
    case AddAssignment(a, row) => a !in l.assignments && row.open && row.seats == [] && IsLead(l, row.owner)
    case AddSeat(a, seat) =>
      OpenAssignment(l, a) && IsLead(l, EffectiveOwner(l, a).tuple) && seat.agent !in AgentsOf(l.assignments[a].seats) && IsLive(l, seat)
    case CloseAssignment(a) => OpenAssignment(l, a) && IsLead(l, EffectiveOwner(l, a).tuple)
    case AddHandback(row) => HandbackLegal(d, l, row)
    case Observe(_, _, _, _) => ObserveLegal(d, l, w)
    case AddOffer(row) => OfferLegal(d, l, row)
    case AddAccept(row) => AcceptLegal(d, l, row)
    case AddBrief(row) => BriefLegal(d, l, row)
    case AddDecision(row) => DecisionLegal(d, l, row)
    case AddDefinition(row) => DefinitionLegal(d, l, row)
    case AddRun(row) => RunLegal(d, l, row)
    case AddRollout(row, opening) => RolloutLegal(d, l, row, opening)
    case AddTransition(row) => TransitionLegal(d, l, row)
  }

  // ------------------------------------------------- reading numbered streams

  /** The chain of accepts is followed to its end when nothing is missing. */
  lemma {:induction false} WalkToEnd(owner: Owner, rows: seq<Accept>)
    requires forall i :: 0 <= i < |rows| ==> rows[i].revision == owner.revision + i + 1
    ensures Walk(owner, rows) == if rows == [] then owner else Owner(rows[|rows| - 1].to, owner.revision + |rows|)
    decreases |rows|
  {
    if rows != [] {
      WalkToEnd(Owner(rows[0].to, rows[0].revision), rows[1..]);
    }
  }

  /** The tuple that succession `n` installed. */
  function Tuple(registered: Seat, rows: seq<Accept>, n: nat): Seat
    requires n <= |rows|
  {
    if n == 0 then registered else rows[n - 1].to
  }

  lemma OwnerIsLatest(l: Ledger, a: Id)
    requires a in l.assignments && Numbered(AcceptsOf(l.accepts, a), AcceptRevision)
    ensures var rows := AcceptsOf(l.accepts, a);
            EffectiveOwner(l, a) == Owner(Tuple(l.assignments[a].owner, rows, |rows|), |rows|)
  {
    NumberedIsSorted(AcceptsOf(l.accepts, a), AcceptRevision);
    WalkToEnd(Owner(l.assignments[a].owner, 0), AcceptsOf(l.accepts, a));
  }

  lemma BriefsAreRead(l: Ledger, a: Id)
    requires Numbered(BriefsOf(l.briefs, a), BriefRevision)
    ensures SortBy(BriefsOf(l.briefs, a), BriefRevision) == BriefsOf(l.briefs, a)
    ensures CurrentBrief(l, a) == |BriefsOf(l.briefs, a)|
  {
    NumberedIsSorted(BriefsOf(l.briefs, a), BriefRevision);
  }

  lemma RolloutIsRead(l: Ledger, a: Id, rollout: Id)
    requires Ordered(l)
    ensures var decls := RolloutsOf(l.rollouts, a, rollout);
            && SortBy(decls, RolloutRevision) == decls && LastKey(decls, RolloutRevision) == |decls|
            && (decls != [] ==> decls[|decls| - 1].revision == |decls|)
    ensures var moves := TransitionsOf(l.transitions, a, rollout);
            SortBy(moves, TransitionRevision) == moves && LastKey(moves, TransitionRevision) == |moves|
  {
    var decls := RolloutsOf(l.rollouts, a, rollout);
    var moves := TransitionsOf(l.transitions, a, rollout);
    NumberedIsSorted(decls, RolloutRevision);
    NumberedIsSorted(moves, TransitionRevision);
    assert decls != [] ==> RolloutRevision(decls[|decls| - 1]) == |decls|;
  }

  lemma DefinitionsAreRead(l: Ledger, a: Id, check: Id)
    requires Ordered(l)
    ensures var defs := DefinitionsOf(l.definitions, a, check);
            SortBy(defs, DefinitionRevision) == defs && Numbered(defs, DefinitionRevision) && LastKey(defs, DefinitionRevision) == |defs|
  {
    NumberedIsSorted(DefinitionsOf(l.definitions, a, check), DefinitionRevision);
  }

  lemma RunsAreRead(l: Ledger, a: Id, rollout: Id, check: Id, candidate: Sha)
    requires Ordered(l)
    ensures var runs := RunsOf(l.runs, a, rollout, check, candidate);
            SortBy(runs, Attempt) == runs
  {
    NumberedIsSorted(RunsOf(l.runs, a, rollout, check, candidate), Attempt);
  }
}
