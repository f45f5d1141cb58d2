/** The desk ledger: append-only tables, the writes that commands make to them,
    and the lookups that every command shares. */
module DeskLedger {
  import opened Options
  import opened Streams

  type Id = nat
  type Sha = nat

  datatype Role = Lead | Supervisor | Peer

  /** A membership row; `agent` is None until the row is bound. */
  datatype Member = Member(membership: Id, agent: Option<Id>, role: Role, revoked: bool, registered: bool, createCwd: Id)

  /** An exact (agent, membership) tuple. */
  datatype Seat = Seat(agent: Id, membership: Id)
  datatype Owner = Owner(tuple: Seat, revision: nat)

  datatype Assignment = Assignment(owner: Seat, open: bool, seats: seq<Seat>, content: Id)

  datatype Offer = Offer(offerId: Id, asg: Id, requestId: Id, revision: nat, from: Seat, to: Seat, content: Id)
  datatype Accept = Accept(acceptId: Id, offerId: Id, asg: Id, requestId: Id, revision: nat, from: Seat, to: Seat,
                           ledgerRevision: nat, briefRevision: nat, settled: bool, content: Id)

  /** A row without its digest, and the row as stored. */
  datatype BriefEntry = BriefEntry(asg: Id, revision: nat, priorRevision: nat, prior: Option<Sha>, body: Id, actor: Seat, requestId: Id)
  datatype Brief = Brief(entry: BriefEntry, sha: Sha)
  datatype DecisionEntry = DecisionEntry(decisionId: Id, asg: Id, revision: nat, priorId: Option<Id>, prior: Option<Sha>,
                                         affected: nat, body: Id, actor: Seat, requestId: Id)
  datatype Decision = Decision(entry: DecisionEntry, sha: Sha)

  datatype Scope = Scope(asg: Id, scopeId: Id, revision: nat, seatAgent: Option<Id>, briefRevision: nat)

  datatype Definition = Definition(checkId: Id, asg: Id, scopeId: Id, requestId: Id, revision: nat, prior: Option<nat>, owner: Seat,
                                   assignmentRevision: nat, digest: Sha, maxRetries: nat)
  datatype Status = Passed | Failed | Blocked | Error
  datatype CheckRun = CheckRun(runId: Id, asg: Id, rolloutId: Id, checkId: Id, requestId: Id, rolloutRevision: nat,
                               definitionRevision: nat, definitionDigest: Sha, candidate: Sha, head: Option<Id>, status: Status,
                               attempt: nat, retryOf: Option<Id>, actor: Seat, evidence: Id)

  datatype Required = Required(checkId: Id, digest: Sha)
  datatype Rollout = Rollout(rolloutId: Id, asg: Id, scopeId: Id, requestId: Id, revision: nat, prior: Option<nat>, owner: Seat,
                             assignmentRevision: nat, candidate: Sha, head: Option<Id>, required: seq<Required>)

  datatype RolloutState =
    | Declared | ChecksRunning | ChecksPassed | ChecksFailed | CanaryReady | CanaryRunning
    | CanaryPassed | CanaryFailed | Held | Promoted | RolledBack | Closed
  datatype RolloutCommand =
    | StartChecks | PassChecks | FailChecks | ReadyCanary | StartCanary | PassCanary
    | FailCanary | Hold | Rollback | Promote | CloseRollout

  /** What the cohort digest covers: ownership joins the recipe after the first succession. */
  datatype CohortPin =
    | LegacyPin(members: set<Id>, assignmentRevision: nat)
    | OwnedPin(members: set<Id>, assignmentRevision: nat, ownershipRevision: nat)
  datatype Cohort = Cohort(members: set<Id>, digest: Sha, assignmentRevision: nat, ownershipRevision: nat)
  datatype Discharge = Discharge(checkId: Id, runId: Id)

  /** `command` is None on the row that a first declaration opens the stream with. */
  datatype Transition = Transition(transitionId: Id, asg: Id, rolloutId: Id, requestId: Id, revision: nat,
                                   command: Option<RolloutCommand>, from: Option<RolloutState>, to: RolloutState,
                                   rolloutRevision: nat, actor: Id, cohort: Option<Cohort>,
                                   target: Option<(Sha, Option<Id>)>, checks: seq<Discharge>, reviews: seq<Id>,
                                   cohortDigestAtGate: Option<Sha>)

  datatype Observation =
    | Pending(repository: Id)
    | Captured(candidateId: Id, repository: Id)
    | CaptureFailed(repository: Id, reason: Id)
  datatype Handback = Handback(handbackId: Id, asg: Id, agent: Id, seatMembership: Id, requestId: Id, revision: nat,
                               record: Id, claimed: Option<Id>, observed: Observation, gaps: seq<Id>)
  datatype Candidate = Candidate(candidateId: Id, asg: Id, seatAgent: Id, seatMembership: Id, repository: Id,
                                 snapshot: Sha, head: Option<Id>)
  datatype Capture = MeasuredAt(repository: Id, snapshot: Sha, head: Option<Id>) | NotMeasured(repository: Id, reason: Id)

  datatype Code =
    | AuthorityRequired | ActorMismatch | RevisionConflict | InvalidRecord | ScopeConflict | CandidateDrift
    | RolloutConflict | RetryExhausted | CheckIncomplete | ReviewIncomplete | CohortDrift

  /** Commands; `requestId` and the acting agent key their idempotency. */
  datatype Command =
    | Register(requestId: Id, actor: Id, content: Id)
    | Attach(requestId: Id, actor: Id, asg: Id, agent: Id)
    | Close(requestId: Id, actor: Id, asg: Id)
    | SubmitHandback(requestId: Id, actor: Id, asg: Id, record: Id, candidateId: Option<Id>)
    | ObserveHandback(requestId: Id, actor: Id, asg: Id, handbackId: Id, capture: Capture)
    | OfferCustody(requestId: Id, actor: Id, asg: Id, expectedOwnership: nat, nominee: Seat, content: Id)
    | AcceptCustody(requestId: Id, actor: Id, asg: Id, offerId: Id, expectedOwnership: nat, expectedLedger: nat,
                    expectedBrief: nat, settled: bool, content: Id)
    | Amend(requestId: Id, actor: Id, asg: Id, expectedBrief: nat, body: Id)
    | AppendDecision(requestId: Id, actor: Id, asg: Id, expectedBrief: nat, affected: nat, body: Id)
    | DeclareCheck(requestId: Id, actor: Id, asg: Id, scopeId: Id, checkId: Id, digest: Sha, maxRetries: nat)
    | CommitRun(requestId: Id, actor: Id, asg: Id, rolloutId: Id, checkId: Id, definitionRevision: nat, rolloutRevision: nat,
                candidate: Sha, head: Option<Id>, status: Status, evidence: Id)
    | DeclareRollout(requestId: Id, actor: Id, asg: Id, scopeId: Id, rolloutId: Id, candidate: Sha, head: Option<Id>,
                     required: seq<Required>)
    | Move(requestId: Id, actor: Id, asg: Id, rolloutId: Id, command: RolloutCommand, rolloutRevision: nat, target: Option<Sha>)

  datatype Write =
    | Nothing
    | AddAssignment(asgId: Id, assignment: Assignment)
    | AddSeat(asgId: Id, seat: Seat)
    | CloseAssignment(asgId: Id)
    | AddHandback(handback: Handback)
    | Observe(handbackId: Id, observed: Observation, gaps: seq<Id>, captured: Option<Candidate>)
    | AddOffer(offer: Offer)
    | AddAccept(accept: Accept)
    | AddBrief(brief: Brief)
    | AddDecision(decision: Decision)
    | AddDefinition(definition: Definition)
    | AddRun(run: CheckRun)
    | AddRollout(rollout: Rollout, opening: Option<Transition>)
    | AddTransition(transition: Transition)

  datatype Outcome = Refused(code: Code) | Commit(write: Write)

  /** Envelope key: actor, assignment slot (None is the registration slot), request id. */
  datatype RequestKey = RequestKey(actor: Id, slot: Option<Id>, requestId: Id)
  /** `Foreign` is the record of a command outside this model. */
  datatype Recorded = Recorded(command: Command, outcome: Outcome, revision: nat) | Foreign(revision: nat)

  datatype Ledger = Ledger(
    revision: nat,
    members: seq<Member>,
    scopes: seq<Scope>,
    assignments: map<Id, Assignment>,
    offers: seq<Offer>,
    accepts: seq<Accept>,
    briefs: seq<Brief>,
    decisions: seq<Decision>,
    definitions: seq<Definition>,
    runs: seq<CheckRun>,
    rollouts: seq<Rollout>,
    transitions: seq<Transition>,
    handbacks: seq<Handback>,
    candidates: seq<Candidate>,
    requests: map<RequestKey, Recorded>)

  datatype Approval = Approval(scopeRevision: nat, candidate: Sha, head: Option<Id>, discharged: seq<Id>)

  datatype IdKind = AsgId | HandbackId | CandidateId | OfferId | AcceptId | DecisionId | RunId | TransitionId

  datatype Limits = Limits(requests: nat, assignments: nat, seats: nat, handbacks: nat, candidates: nat, offers: nat, accepts: nat,
                           briefs: nat, decisions: nat, definitions: nat, runs: nat, rollouts: nat, transitions: nat, cohort: nat)

  /** What the desk takes from elsewhere: id derivation and digests, the edge
      table, the standing review approval, report validation, and table caps. */
  datatype Desk = Desk(
    derive: (IdKind, seq<Id>) -> Id,
    briefSha: BriefEntry -> Sha,
    decisionSha: DecisionEntry -> Sha,
    cohortSha: CohortPin -> Sha,
    edge: (RolloutState, RolloutCommand) -> Option<RolloutState>,
    approval: (Ledger, Id, Id) -> Option<Approval>,
    reportProblem: Id -> bool,
    warnings: Id -> seq<Id>,
    limits: Limits)

  // --------------------------------------------------------------- streams

  function AcceptRevision(r: Accept): nat { r.revision }
  function BriefRevision(r: Brief): nat { r.entry.revision }
  function DecisionRevision(r: Decision): nat { r.entry.revision }
  function DefinitionRevision(r: Definition): nat { r.revision }
  function Attempt(r: CheckRun): nat { r.attempt }
  function RolloutRevision(r: Rollout): nat { r.revision }
  function TransitionRevision(r: Transition): nat { r.revision }
  function HandbackRevision(r: Handback): nat { r.revision }
  function ScopeRevision(r: Scope): nat { r.revision }

  function AcceptsOf(rows: seq<Accept>, a: Id): seq<Accept> {
    Filter(rows, (r: Accept) => r.asg == a)
  }

  function BriefsOf(rows: seq<Brief>, a: Id): seq<Brief> {
    Filter(rows, (r: Brief) => r.entry.asg == a)
  }

  function DecisionsOf(rows: seq<Decision>, a: Id): seq<Decision> {
    Filter(rows, (r: Decision) => r.entry.asg == a)
  }

  function DefinitionsOf(rows: seq<Definition>, a: Id, check: Id): seq<Definition> {
    Filter(rows, (r: Definition) => r.asg == a && r.checkId == check)
  }

  /** The retry stream of one check on one candidate. */
  function RunsOf(rows: seq<CheckRun>, a: Id, rollout: Id, check: Id, candidate: Sha): seq<CheckRun> {
    Filter(rows, (r: CheckRun) => r.asg == a && r.rolloutId == rollout && r.checkId == check && r.candidate == candidate)
  }

  function RolloutsOf(rows: seq<Rollout>, a: Id, rollout: Id): seq<Rollout> {
    Filter(rows, (r: Rollout) => r.asg == a && r.rolloutId == rollout)
  }

  function TransitionsOf(rows: seq<Transition>, a: Id, rollout: Id): seq<Transition> {
    Filter(rows, (r: Transition) => r.asg == a && r.rolloutId == rollout)
  }

  function HandbacksOf(rows: seq<Handback>, a: Id, agent: Id): seq<Handback> {
    Filter(rows, (r: Handback) => r.asg == a && r.agent == agent)
  }

  function ScopesOf(rows: seq<Scope>, a: Id, scope: Id): seq<Scope> {
    Filter(rows, (r: Scope) => r.asg == a && r.scopeId == scope)
  }

  // --------------------------------------------------------------- lookups

  function LiveMember(members: seq<Member>, agent: Id): Option<Member> {
    Find(members, (m: Member) => m.agent == Some(agent) && !m.revoked && m.registered)
  }

  /** Follow the contiguous chain of accepted successions; stop at a gap. */
  function Walk(owner: Owner, rows: seq<Accept>): Owner
    decreases |rows|
  {
    if rows == [] || rows[0].revision != owner.revision + 1 then owner
    else Walk(Owner(rows[0].to, rows[0].revision), rows[1..])
  }

  /** Registered tuple at revision 0, latest accepted successor afterwards. */
  function OwnerOf(registered: Seat, accepts: seq<Accept>, a: Id): Owner {
    Walk(Owner(registered, 0), SortBy(AcceptsOf(accepts, a), AcceptRevision))
  }

  function EffectiveOwner(l: Ledger, a: Id): Owner
    requires a in l.assignments
  {
    OwnerOf(l.assignments[a].owner, l.accepts, a)
  }

  /** The loop that resolves the effective owner. */
  method ResolveOwner(registered: Seat, accepts: seq<Accept>, a: Id) returns (owner: Owner)
    ensures owner == OwnerOf(registered, accepts, a)
  {
    owner := Owner(registered, 0);
    var rows := SortBy(AcceptsOf(accepts, a), AcceptRevision);
    var i := 0;
    while i < |rows|
      invariant 0 <= i <= |rows|
      invariant OwnerOf(registered, accepts, a) == Walk(owner, rows[i..])
    {
      if rows[i].revision != owner.revision + 1 { break; }
      assert rows[i..][1..] == rows[i + 1..];
      owner := Owner(rows[i].to, rows[i].revision);
      i := i + 1;
    }
  }

  /** Register is 1, every seat adds one, close adds one. */
  function StructuralRevision(a: Assignment): nat {
    1 + |a.seats| + (if a.open then 0 else 1)
  }

  function AgentsOf(seats: seq<Seat>): set<Id> {
    set s <- seats :: s.agent
  }

  /** The latest brief revision of an assignment, 0 before the first. */
  function CurrentBrief(l: Ledger, a: Id): nat {
    LastKey(SortBy(BriefsOf(l.briefs, a), BriefRevision), BriefRevision)
  }

  function KeyOf(c: Command): RequestKey {
    if c.Register? then RequestKey(c.actor, None, c.requestId) else RequestKey(c.actor, Some(c.asg), c.requestId)
  }

  // ---------------------------------------------------------------- writes

  function Observed(h: Handback, w: Write): Handback
    requires w.Observe?
  {
    if h.handbackId == w.handbackId then h.(observed := w.observed, gaps := w.gaps) else h
  }

  function ObservedAll(hs: seq<Handback>, w: Write): seq<Handback>
    requires w.Observe?
  {
    seq(|hs|, i requires 0 <= i < |hs| => Observed(hs[i], w))
  }

  function Apply(l: Ledger, w: Write): Ledger {
    match w
    case Nothing => l
    case AddAssignment(a, row) => l.(assignments := l.assignments[a := row])
    case AddSeat(a, seat) =>
      if a !in l.assignments then l
      else l.(assignments := l.assignments[a := l.assignments[a].(seats := l.assignments[a].seats + [seat])])
    case CloseAssignment(a) =>
      if a !in l.assignments then l else l.(assignments := l.assignments[a := l.assignments[a].(open := false)])
    case AddHandback(row) => l.(handbacks := l.handbacks + [row])
    case Observe(_, _, _, captured) =>
      l.(handbacks := ObservedAll(l.handbacks, w), candidates := l.candidates + (if captured.Some? then [captured.value] else []))
    case AddOffer(row) => l.(offers := l.offers + [row])
    case AddAccept(row) => l.(accepts := l.accepts + [row])
    case AddBrief(row) => l.(briefs := l.briefs + [row])
    case AddDecision(row) => l.(decisions := l.decisions + [row])
    case AddDefinition(row) => l.(definitions := l.definitions + [row])
    case AddRun(row) => l.(runs := l.runs + [row])
    case AddRollout(row, opening) =>
      l.(rollouts := l.rollouts + [row],
         transitions := l.transitions + (if opening.Some? then [opening.value] else []))
    case AddTransition(row) => l.(transitions := l.transitions + [row])
  }
}
