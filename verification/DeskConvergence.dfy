/** Handback convergence, and the two procedures that commit in steps while other
    callers commit in between. */
module DeskConvergence {
  import opened Options
  import opened Streams
  import opened DeskLedger
  import opened DeskRules
  import opened DeskCommand
  import opened DeskOwnership
  import opened DeskAssignment
  import opened DeskCheckRunner
  import opened DeskRollout
  import opened DeskHandback
  import opened DeskStore
  import opened DeskInvariants
  import opened DeskHistory
  import opened DeskEvidence

  /** Candidates are in bijection with captured handbacks, matching in assignment,
      seat and repository; and the revisions of one seat's handbacks run 1..n. */
  lemma CandidatesMatchHandbacks(d: Desk, acts: seq<Action>, l: Ledger)
    requires Injective(d) && Run(d, EMPTY, acts) == Some(l)
    ensures forall h <- l.handbacks :: h.observed.Captured? ==> HasCandidate(l.candidates, h)
    ensures forall c <- l.candidates :: HasHandback(l.handbacks, c)
    ensures forall h <- l.handbacks, c <- l.candidates, c' <- l.candidates :: Produced(h, c) && Produced(h, c') ==> c == c'
    ensures forall h <- l.handbacks, h' <- l.handbacks, c <- l.candidates :: Produced(h, c) && Produced(h', c) ==> h == h'
    ensures HandbacksNumbered(l.handbacks)
  {
    ReachableInv(d, acts);
    forall h <- l.handbacks, h' <- l.handbacks, c <- l.candidates | Produced(h, c) && Produced(h', c)
      ensures h == h'
    {
      SameProducer(d, l, h, h', c);
    }
  }

  lemma SameProducer(d: Desk, l: Ledger, h: Handback, h': Handback, c: Candidate)
    requires Injective(d) && HandbackInv(d, l) && h in l.handbacks && h' in l.handbacks && Produced(h, c) && Produced(h', c)
    ensures h == h'
  {
    assert DerivedIds(d, h) && DerivedIds(d, h');
    OnePart(d, CandidateId, h.handbackId, h'.handbackId);
    OneHandbackPerId(d, l, h, h');
  }

  /** The row of one submit: exactly one, wherever it stands. */
  ghost predicate TheRow(l: Ledger, k: nat, row: Handback) {
    && k < |l.handbacks| && ClaimKept(row, l.handbacks[k])
    && forall j :: 0 <= j < |l.handbacks| && j != k ==> HandbackKey(l.handbacks[j]) != HandbackKey(row)
  }

  lemma KeysApart(hs: seq<Handback>, k: nat)
    requires DistinctHandbacks(hs) && k < |hs|
    ensures forall j :: 0 <= j < |hs| && j != k ==> HandbackKey(hs[j]) != HandbackKey(hs[k])
  {
    forall j | 0 <= j < |hs| && j != k
      ensures HandbackKey(hs[j]) != HandbackKey(hs[k])
    {
      if j < k { assert HandbackKey(hs[j]) != HandbackKey(hs[k]); } else { assert HandbackKey(hs[k]) != HandbackKey(hs[j]); }
    }
  }

  /** After a submit commits, in every later ledger there is exactly one row for it
      with the claim as submitted, and submitting it again replays and changes nothing. */
  lemma HandbackConverges(d: Desk, l: Ledger, c: Command, row: Handback, more: seq<Action>, l': Ledger)
    requires Injective(d) && Inv(d, l) && c.SubmitHandback? && Answer(d, l, c) == Fresh(Commit(AddHandback(row)))
    requires Run(d, Transact(d, l, c), more) == Some(l')
    ensures TheRow(l', |l.handbacks|, row)
    ensures Answer(d, l', c).Replayed? && Transact(d, l', c) == l'
  {
    hide Injective, Inv, Decide, Run;
    var w := Transact(d, l, c);
    assert w == Next(d, l, Submit(c));
    NextKeepsInv(d, l, Submit(c));
    HistoryIsKept(d, w, more);
    InvMeans(d, l');
    TablesMean(d, l');
    hide TableInv;
    assert w.handbacks[|l.handbacks|] == row;
    assert ClaimKept(w.handbacks[|l.handbacks|], l'.handbacks[|l.handbacks|]);
    KeysApart(l'.handbacks, |l.handbacks|);
    assert KeyOf(c) in w.requests && w.requests[KeyOf(c)].command == c;
  }

  // -------------------------------------------------------------- procedures

  /** The store as callers share it. */
  class Store {
    const desk: Desk
    var ledger: Ledger

    constructor (desk: Desk)
      ensures this.desk == desk && ledger == EMPTY
    {
      this.desk := desk;
      ledger := EMPTY;
    }

    method Commit(c: Command) returns (reply: Reply)
      modifies this
      ensures reply == Answer(desk, old(ledger), c) && ledger == Transact(desk, old(ledger), c)
    {
      reply := Answer(desk, ledger, c);
      ledger := Transact(desk, ledger, c);
    }

    /** What other callers commit while this one waits. */
    method Meanwhile(acts: seq<Action>)
      modifies this
      ensures ledger == After(desk, old(ledger), acts)
    {
      ledger := After(desk, ledger, acts);
    }
  }

  function After(d: Desk, l: Ledger, acts: seq<Action>): Ledger {
    var run := Run(d, l, acts);
    if run.Some? then run.value else l
  }

  lemma AfterKeeps(d: Desk, l: Ledger, acts: seq<Action>)
    requires Injective(d) && Inv(d, l)
    ensures Inv(d, After(d, l, acts)) && Grows(l, After(d, l, acts))
  {
    if Run(d, l, acts).Some? { HistoryIsKept(d, l, acts); }
    Reflexive(l);
  }

  lemma CommitKeeps(d: Desk, l: Ledger, c: Command)
    requires Injective(d) && Inv(d, l)
    ensures Inv(d, Transact(d, l, c)) && Grows(l, Transact(d, l, c))
  {
    hide Injective, Inv, Transact, Grows;
    assert Next(d, l, Submit(c)) == Transact(d, l, c);
    NextKeepsInv(d, l, Submit(c));
    NextGrows(d, l, Submit(c));
  }

  datatype Submitted =
    | NotAccepted
    | Unreadable
    | Accepted(handbackId: Id, revision: nat, candidateId: Option<Id>)

  function Locate(hs: seq<Handback>, key: RequestKey): Option<Handback> {
    Find(hs, (h: Handback) => HandbackKey(h) == key)
  }

  predicate Succeeded(reply: Reply) {
    || (reply.Fresh? && reply.outcome.Commit?)
    || (reply.Replayed? && reply.recorded.Recorded? && reply.recorded.outcome.Commit?)
  }

  /** The claim a submit made is on record in its row. */
  ghost predicate Claimed(l: Ledger, c: Command)
    requires c.SubmitHandback?
  {
    var row := Locate(l.handbacks, KeyOf(c));
    row.Some? && row.value.record == c.record && row.value.claimed == c.candidateId
  }

  /** Every committed submit has its row. */
  ghost predicate SubmitsHaveRows(l: Ledger) {
    forall k <- l.requests | l.requests[k].Recorded? && l.requests[k].command.SubmitHandback? && l.requests[k].outcome.Commit? ::
      KeyOf(l.requests[k].command) == k && Claimed(l, l.requests[k].command)
  }

  lemma LocateKept(l: Ledger, l': Ledger, key: RequestKey)
    requires Grows(l, l') && DistinctHandbacks(l'.handbacks) && Locate(l.handbacks, key).Some?
    ensures Locate(l'.handbacks, key).Some? && ClaimKept(Locate(l.handbacks, key).value, Locate(l'.handbacks, key).value)
  {
    var h := Locate(l.handbacks, key).value;
    var i :| 0 <= i < |l.handbacks| && l.handbacks[i] == h;
    assert ClaimKept(h, l'.handbacks[i]) && l'.handbacks[i] in l'.handbacks;
    var g := Locate(l'.handbacks, key).value;
    var j :| 0 <= j < |l'.handbacks| && l'.handbacks[j] == g;
    KeysApart(l'.handbacks, i);
  }

  lemma RecordKept(d: Desk, l: Ledger, c: Command)
    ensures forall k <- Transact(d, l, c).requests :: k in l.requests || (k == KeyOf(c) && Answer(d, l, c).Fresh?
              && Transact(d, l, c).requests[k] == Recorded(c, Answer(d, l, c).outcome, l.revision + 1))
    ensures forall k <- l.requests :: k in Transact(d, l, c).requests && Transact(d, l, c).requests[k] == l.requests[k]
  {
    hide Decide;
  }

  lemma SubmitRowIsFound(d: Desk, l: Ledger, c: Command)
    requires c.SubmitHandback? && Answer(d, l, c).Fresh? && Answer(d, l, c).outcome.Commit?
    requires DistinctHandbacks(Transact(d, l, c).handbacks)
    ensures Claimed(Transact(d, l, c), c)
  {
    var row := DecideSubmit(d, l, c).write.handback;
    assert row.record == c.record && row.claimed == c.candidateId;
    hide DecideSubmit;
    var hs := Transact(d, l, c).handbacks;
    assert hs == l.handbacks + [row] && HandbackKey(row) == KeyOf(c);
    assert hs[|l.handbacks|] == row && row in hs;
    KeysApart(hs, |l.handbacks|);
    var g := Locate(hs, KeyOf(c)).value;
    var j :| 0 <= j < |hs| && hs[j] == g;
  }

  lemma DistinctRows(d: Desk, l: Ledger)
    requires Inv(d, l)
    ensures DistinctHandbacks(l.handbacks)
  {
  }

  lemma CommitKeepsRows(d: Desk, l: Ledger, c: Command)
    requires Injective(d) && Inv(d, l) && SubmitsHaveRows(l)
    ensures SubmitsHaveRows(Transact(d, l, c))
  {
    hide Injective, Inv, Decide, Locate, Grows;
    var l' := Transact(d, l, c);
    CommitKeeps(d, l, c);
    DistinctRows(d, l');
    RecordKept(d, l, c);
    hide Transact, Answer;
    forall k <- l'.requests | l'.requests[k].Recorded? && l'.requests[k].command.SubmitHandback? && l'.requests[k].outcome.Commit?
      ensures KeyOf(l'.requests[k].command) == k && Claimed(l', l'.requests[k].command)
    {
      if k in l.requests { LocateKept(l, l', k); } else { SubmitRowIsFound(d, l, c); }
    }
  }

  lemma {:induction false} RunKeepsRows(d: Desk, l: Ledger, acts: seq<Action>)
    requires Injective(d) && Inv(d, l) && SubmitsHaveRows(l) && Run(d, l, acts).Some?
    ensures SubmitsHaveRows(Run(d, l, acts).value)
    decreases |acts|
  {
    hide Injective, Inv, SubmitsHaveRows, Transact;
    if acts != [] {
      var before, last := acts[..|acts| - 1], acts[|acts| - 1];
      RunKeepsRows(d, l, before);
      var w := Run(d, l, before).value;
      HistoryIsKept(d, l, before);
      match last
      case Submit(c) => CommitKeepsRows(d, w, c);
      case Other(members, scopes, key) => OtherKeepsRows(w, members, scopes, key);
      case Declined(_) =>
    }
  }

  lemma OtherKeepsRows(l: Ledger, members: seq<Member>, scopes: seq<Scope>, key: RequestKey)
    requires SubmitsHaveRows(l) && key !in l.requests
    ensures SubmitsHaveRows(l.(members := members, scopes := scopes, revision := l.revision + 1,
                               requests := l.requests[key := Foreign(l.revision + 1)]))
  {
    hide Locate;
  }

  /** The row that a recorded run committed is there, under its actor and request. */
  ghost predicate RowOnRecord(l: Ledger, c: Command, o: Outcome)
    requires c.CommitRun?
  {
    && o.Commit? && o.write.AddRun? && o.write.run in l.runs
    && o.write.run.asg == c.asg && o.write.run.requestId == c.requestId && o.write.run.actor.agent == c.actor
  }

  function RunKey(r: CheckRun): RequestKey {
    RequestKey(r.actor.agent, Some(r.asg), r.requestId)
  }

  /** The request of a run row is on record as the one that committed it. */
  ghost predicate RequestOnRecord(l: Ledger, r: CheckRun) {
    RunKey(r) in l.requests && l.requests[RunKey(r)].Recorded? && l.requests[RunKey(r)].outcome == Commit(AddRun(r))
  }

  /** Every committed run has its row, and every row its request. */
  ghost predicate RunsHaveRows(l: Ledger) {
    && (forall k <- l.requests | l.requests[k].Recorded? && l.requests[k].command.CommitRun? && l.requests[k].outcome.Commit? ::
          RowOnRecord(l, l.requests[k].command, l.requests[k].outcome))
    && (forall r <- l.runs :: RequestOnRecord(l, r))
  }

  lemma RunsComeFromRuns(d: Desk, l: Ledger, c: Command)
    requires Decide(d, l, c).Commit?
    ensures !c.CommitRun? ==> Apply(l, Decide(d, l, c).write).runs == l.runs
  {
    hide DecideRegister, DecideAttach, DecideClose, DecideSubmit, DecideObserve, DecideOffer, DecideAccept;
    hide DecideAmend, DecideDecision, DecideDeclareCheck, DecideCommitRun, DecideDeclareRollout, DecideMove;
  }

  lemma RequestsKeepRuns(d: Desk, l: Ledger, c: Command)
    requires RunsHaveRows(l)
    ensures forall r <- Transact(d, l, c).runs :: RequestOnRecord(Transact(d, l, c), r)
  {
    var l' := Transact(d, l, c);
    RecordKept(d, l, c);
    if Answer(d, l, c).Fresh? && Decide(d, l, c).Commit? {
      if c.CommitRun? {
        RunRecords(d, l, c);
        assert Decide(d, l, c).write.AddRun? && RunKey(Decide(d, l, c).write.run) == KeyOf(c);
      } else {
        RunsComeFromRuns(d, l, c);
      }
    }
    hide Decide, DecideCommitRun;
    forall r <- l'.runs
      ensures RequestOnRecord(l', r)
    {
      if r in l.runs { assert RequestOnRecord(l, r); }
    }
  }

  lemma RunIsOnRecord(d: Desk, l: Ledger, c: Command)
    requires c.CommitRun? && Answer(d, l, c).Fresh? && Answer(d, l, c).outcome.Commit?
    ensures RowOnRecord(Transact(d, l, c), c, Answer(d, l, c).outcome)
  {
    RunRecords(d, l, c);
    hide DecideCommitRun;
    var row := Decide(d, l, c).write.run;
    assert Transact(d, l, c).runs == l.runs + [row];
    assert Transact(d, l, c).runs[|l.runs|] == row;
  }

  lemma CommitKeepsRuns(d: Desk, l: Ledger, c: Command)
    requires RunsHaveRows(l) && Grows(l, Transact(d, l, c))
    ensures RunsHaveRows(Transact(d, l, c))
  {
    hide Decide;
    var l' := Transact(d, l, c);
    RecordKept(d, l, c);
    RequestsKeepRuns(d, l, c);
    forall k <- l'.requests | l'.requests[k].Recorded? && l'.requests[k].command.CommitRun? && l'.requests[k].outcome.Commit?
      ensures RowOnRecord(l', l'.requests[k].command, l'.requests[k].outcome)
    {
      if k in l.requests {
        assert RowOnRecord(l, l.requests[k].command, l.requests[k].outcome);
      } else {
        RunIsOnRecord(d, l, c);
      }
    }
  }

  lemma {:induction false} RunKeepsRuns(d: Desk, l: Ledger, acts: seq<Action>)
    requires Injective(d) && Inv(d, l) && RunsHaveRows(l) && Run(d, l, acts).Some?
    ensures RunsHaveRows(Run(d, l, acts).value)
    decreases |acts|
  {
    hide Injective, Inv, RunsHaveRows, Transact, Grows;
    if acts != [] {
      var before, last := acts[..|acts| - 1], acts[|acts| - 1];
      RunKeepsRuns(d, l, before);
      var w := Run(d, l, before).value;
      HistoryIsKept(d, l, before);
      match last
      case Submit(c) =>
        CommitKeeps(d, w, c);
        CommitKeepsRuns(d, w, c);
      case Other(members, scopes, key) => OtherKeepsRuns(w, members, scopes, key);
      case Declined(_) =>
    }
  }

  lemma OtherKeepsRuns(l: Ledger, members: seq<Member>, scopes: seq<Scope>, key: RequestKey)
    requires RunsHaveRows(l) && key !in l.requests
    ensures RunsHaveRows(l.(members := members, scopes := scopes, revision := l.revision + 1,
                            requests := l.requests[key := Foreign(l.revision + 1)]))
  {
    forall r <- l.runs
      ensures key != RunKey(r)
    {
      assert RequestOnRecord(l, r);
    }
  }

  /** The invariant a store keeps for whoever uses it. */
  ghost predicate Sound(d: Desk, l: Ledger) {
    Injective(d) && Inv(d, l) && SubmitsHaveRows(l) && RunsHaveRows(l)
  }

  lemma StepsKeepSound(d: Desk, l: Ledger, c: Command, acts: seq<Action>)
    requires Sound(d, l)
    ensures Sound(d, Transact(d, l, c)) && Grows(l, Transact(d, l, c))
    ensures Sound(d, After(d, l, acts)) && Grows(l, After(d, l, acts))
  {
    hide Injective, Inv, SubmitsHaveRows, RunsHaveRows, Transact, Grows;
    CommitKeeps(d, l, c);
    CommitKeepsRows(d, l, c);
    CommitKeepsRuns(d, l, c);
    AfterKeeps(d, l, acts);
    if Run(d, l, acts).Some? {
      RunKeepsRows(d, l, acts);
      RunKeepsRuns(d, l, acts);
    }
  }

  lemma SuccessIsClaimed(d: Desk, l: Ledger, c: Command)
    requires Sound(d, l) && c.SubmitHandback? && Succeeded(Answer(d, l, c))
    ensures Claimed(Transact(d, l, c), c)
  {
    hide Injective, Inv, Decide, Locate;
    StepsKeepSound(d, l, c, []);
    if Answer(d, l, c).Fresh? {
      DistinctRows(d, Transact(d, l, c));
      SubmitRowIsFound(d, l, c);
    }
  }

  lemma ClaimStays(d: Desk, l: Ledger, l': Ledger, c: Command)
    requires Sound(d, l') && Grows(l, l') && c.SubmitHandback? && Claimed(l, c)
    ensures Claimed(l', c) && ClaimKept(Locate(l.handbacks, KeyOf(c)).value, Locate(l'.handbacks, KeyOf(c)).value)
  {
    hide Locate, Grows;
    DistinctRows(d, l');
    LocateKept(l, l', KeyOf(c));
  }

  /** The two-commit submit: claim, capture, observe.  Other callers commit between
      its steps, and the observation may fail or be refused.  An accepted answer
      describes the one row of the claim as submitted, its candidate when it has
      one, and is never given for a claim whose row cannot be found. */
  method RunHandbackSubmit(store: Store, submit: Command, between: seq<Action>, bound: bool, capture: Capture, observeId: Id,
                           during: seq<Action>) returns (result: Submitted)
    requires submit.SubmitHandback? && Sound(store.desk, store.ledger)
    modifies store
    ensures Sound(store.desk, store.ledger) && Grows(old(store.ledger), store.ledger)
    ensures result != Unreadable
    ensures result.NotAccepted? <==> !Succeeded(Answer(store.desk, old(store.ledger), submit))
    ensures result.Accepted? ==>
              && Claimed(store.ledger, submit)
              && var row := Locate(store.ledger.handbacks, KeyOf(submit)).value;
                 && result.handbackId == row.handbackId && result.revision == row.revision
                 && (result.candidateId.Some? ==>
                       && row.observed.Captured? && result.candidateId.value == row.observed.candidateId
                       && HasCandidate(store.ledger.candidates, row))
  {
    hide Sound, Claimed, Grows, Transact, Locate, After, Answer;
    ghost var d, start := store.desk, store.ledger;
    StepsKeepSound(d, start, submit, []);
    var reply := store.Commit(submit);
    if !Succeeded(reply) { return NotAccepted; }
    SuccessIsClaimed(d, start, submit);
    ghost var committed := store.ledger;
    StepsKeepSound(d, committed, submit, between);
    store.Meanwhile(between);
    GrowsTransitively(start, committed, store.ledger);
    ClaimStays(d, committed, store.ledger, submit);
    var located := Locate(store.ledger.handbacks, KeyOf(submit));
    ClaimMeans(store.ledger, submit);
    if located.None? { return Unreadable; }
    var final := located.value;
    if final.observed.Pending? && bound {
      ghost var waiting := store.ledger;
      StepsKeepSound(d, waiting, submit, during);
      store.Meanwhile(during);
      GrowsTransitively(start, waiting, store.ledger);
      ClaimStays(d, waiting, store.ledger, submit);
      ghost var measured := store.ledger;
      var observe := ObserveHandback(observeId, submit.actor, submit.asg, final.handbackId, capture);
      StepsKeepSound(d, measured, observe, []);
      var observed := store.Commit(observe);
      GrowsTransitively(start, measured, store.ledger);
      ClaimStays(d, measured, store.ledger, submit);
      if Succeeded(observed) {
        ClaimMeans(store.ledger, submit);
        final := Locate(store.ledger.handbacks, KeyOf(submit)).value;
      }
    }
    CapturedHasCandidate(d, store.ledger, KeyOf(submit));
    return Accepted(final.handbackId, final.revision, if final.observed.Captured? then Some(final.observed.candidateId) else None);
  }

  lemma ClaimMeans(l: Ledger, c: Command)
    requires c.SubmitHandback? && Claimed(l, c)
    ensures Locate(l.handbacks, KeyOf(c)).Some?
  {
  }

  lemma CapturedHasCandidate(d: Desk, l: Ledger, key: RequestKey)
    requires Sound(d, l)
    ensures var h := Locate(l.handbacks, key); h.Some? && h.value.observed.Captured? ==> HasCandidate(l.candidates, h.value)
  {
  }

  datatype RunResult = RunRefused | RunUnreadable | RunRow(row: CheckRun)

  function RunNamed(runs: seq<CheckRun>, a: Id, requestId: Id): Option<CheckRun> {
    Find(runs, (r: CheckRun) => r.requestId == requestId && r.asg == a)
  }

  /** A committed row answers only its own actor and body, and only if its request is on record. */
  predicate ReplayMatches(l: Ledger, row: CheckRun, c: Command)
    requires c.CommitRun?
  {
    && row.actor.agent == c.actor && row.rolloutId == c.rolloutId && row.checkId == c.checkId
    && row.definitionRevision == c.definitionRevision && row.evidence == c.evidence
    && KeyOf(c) in l.requests
  }

  /** The request as the caller sends it, completed by the preflight's pins and the outcome. */
  function Measured(c: Command, declaration: Rollout, status: Status): Command
    requires c.CommitRun?
  {
    c.(rolloutRevision := declaration.revision, candidate := declaration.candidate, head := declaration.head, status := status)
  }

  /** The row that a successful commit of a run left, or had left when it was first sent. */
  function OwnRow(reply: Reply): Option<CheckRun> {
    var outcome := if reply.Fresh? then Some(reply.outcome)
                   else if reply.Replayed? && reply.recorded.Recorded? then Some(reply.recorded.outcome) else None;
    if outcome.Some? && outcome.value.Commit? && outcome.value.write.AddRun? then Some(outcome.value.write.run) else None
  }

  /** The first row of a request stays the first. */
  lemma {:induction false} FirstStays(runs: seq<CheckRun>, more: seq<CheckRun>, a: Id, requestId: Id)
    requires runs <= more && RunNamed(runs, a, requestId).Some?
    ensures RunNamed(more, a, requestId) == RunNamed(runs, a, requestId)
  {
    if !(runs[0].requestId == requestId && runs[0].asg == a) {
      FirstStays(runs[1..], more[1..], a, requestId);
    }
  }

  /** After a success the lookup finds a row, and it is the caller's own exactly if it names the caller. */
  lemma SuccessIsFound(d: Desk, l: Ledger, c: Command, runs: seq<CheckRun>)
    requires Sound(d, l) && c.CommitRun? && Succeeded(Answer(d, l, c)) && Transact(d, l, c).runs <= runs
    ensures OwnRow(Answer(d, l, c)).Some?
    ensures var own, found := OwnRow(Answer(d, l, c)).value, RunNamed(runs, c.asg, c.requestId);
            && found.Some? && own.actor.agent == c.actor && own.asg == c.asg && own.requestId == c.requestId
            && (found.value == own <==> found.value.actor.agent == c.actor)
            && (Answer(d, l, c).Fresh? ==> (found.value == own <==> RunNamed(l.runs, c.asg, c.requestId).None?))
  {
    hide Injective, Inv, SubmitsHaveRows, Decide, Transact, RowOnRecord, RequestOnRecord;
    var l' := Transact(d, l, c);
    StepsKeepSound(d, l, c, []);
    RecordMeans(d, l, c);
    var own := OwnRow(Answer(d, l, c)).value;
    var found := RunNamed(l'.runs, c.asg, c.requestId);
    assert own in l'.runs;
    FirstStays(l'.runs, runs, c.asg, c.requestId);
    if found.value.actor.agent == c.actor { SameRequestSameRow(l', own, found.value); }
    if Answer(d, l, c).Fresh? { FreshIsFirst(d, l, c); }
  }

  lemma SameRequestSameRow(l: Ledger, r: CheckRun, r': CheckRun)
    requires RunsHaveRows(l) && r in l.runs && r' in l.runs && RunKey(r) == RunKey(r')
    ensures r == r'
  {
    assert RequestOnRecord(l, r) && RequestOnRecord(l, r');
  }

  lemma RecordMeans(d: Desk, l: Ledger, c: Command)
    requires Sound(d, l) && c.CommitRun? && Succeeded(Answer(d, l, c))
    ensures var own := OwnRow(Answer(d, l, c));
            own.Some? && own.value in Transact(d, l, c).runs
            && own.value.asg == c.asg && own.value.requestId == c.requestId && own.value.actor.agent == c.actor
  {
    hide Injective, Inv, SubmitsHaveRows, Decide;
    if Answer(d, l, c).Fresh? {
      RunIsOnRecord(d, l, c);
    } else {
      assert RowOnRecord(l, c, l.requests[KeyOf(c)].outcome);
    }
  }

  lemma FreshIsFirst(d: Desk, l: Ledger, c: Command)
    requires Sound(d, l) && c.CommitRun? && Answer(d, l, c).Fresh? && Answer(d, l, c).outcome.Commit?
    ensures var own, before := OwnRow(Answer(d, l, c)), RunNamed(l.runs, c.asg, c.requestId);
            && own.Some?
            && RunNamed(Transact(d, l, c).runs, c.asg, c.requestId) == (if before.Some? then before else own)
            && (before.Some? ==> before != own)
  {
    assert RunsHaveRows(l);
    hide Sound, RunNamed, Decide, Transact, Answer, RunsHaveRows, OwnRow, KeyOf;
    var own := AppendedRun(d, l, c);
    var before := RunNamed(l.runs, c.asg, c.requestId);
    if before.Some? {
      FirstStays(l.runs, l.runs + [own], c.asg, c.requestId);
      NotOnRecordYet(l, own, before.value, KeyOf(c));
    } else {
      NoneBefore(l.runs, own, c.asg, c.requestId);
    }
  }

  lemma AppendedRun(d: Desk, l: Ledger, c: Command) returns (own: CheckRun)
    requires c.CommitRun? && Answer(d, l, c).Fresh? && Answer(d, l, c).outcome.Commit?
    ensures OwnRow(Answer(d, l, c)) == Some(own) && Transact(d, l, c).runs == l.runs + [own]
    ensures RunKey(own) == KeyOf(c) && KeyOf(c) !in l.requests && own.asg == c.asg && own.requestId == c.requestId
  {
    RunRecords(d, l, c);
    hide DecideCommitRun;
    own := Decide(d, l, c).write.run;
  }

  lemma NotOnRecordYet(l: Ledger, own: CheckRun, before: CheckRun, key: RequestKey)
    requires RunsHaveRows(l) && before in l.runs && RunKey(own) == key && key !in l.requests
    ensures before != own
  {
    assert RequestOnRecord(l, before);
  }

  lemma {:induction false} NoneBefore(runs: seq<CheckRun>, own: CheckRun, a: Id, requestId: Id)
    requires RunNamed(runs, a, requestId).None? && own.asg == a && own.requestId == requestId
    ensures RunNamed(runs + [own], a, requestId) == Some(own)
  {
    if runs != [] {
      assert runs[0] in runs && (runs + [own])[1..] == runs[1..] + [own];
      NoneBefore(runs[1..], own, a, requestId);
    }
  }

  /** Preflight, execute, commit, read back.  A replay returns the committed row without
      executing; a refused preflight executes nothing; and an outcome is committed
      only under pins that nobody moved while it was measured.  A success is always
      answered with a row, and with the caller's own one exactly if no other actor
      committed a row under the same request id first. */
  method RunCheckRun(store: Store, membership: Id, c: Command, freshBefore: bool, status: Status, during: seq<Action>, freshAfter: bool,
                     later: seq<Action>)
    returns (result: RunResult, executed: bool, ghost sent: Command)
    requires c.CommitRun? && Sound(store.desk, store.ledger)
    modifies store
    ensures sent.CommitRun? && (!executed ==> store.ledger == old(store.ledger)) && !result.RunUnreadable?
    ensures result.RunRow? ==> result.row in store.ledger.runs && result.row.requestId == c.requestId && result.row.asg == c.asg
    ensures !executed && result.RunRow? ==> ReplayMatches(store.ledger, result.row, c)
    ensures executed ==>
              var mid := After(store.desk, old(store.ledger), during);
              && sent == c.(rolloutRevision := sent.rolloutRevision, candidate := sent.candidate, head := sent.head, status := status)
              && CarriesPins(store.desk, old(store.ledger), sent) && OpenAssignment(old(store.ledger), c.asg)
              && (result.RunRow? <==> freshAfter && Succeeded(Answer(store.desk, mid, sent)))
              && store.ledger == (if !freshAfter then mid
                                  else if result.RunRow? then After(store.desk, Transact(store.desk, mid, sent), later)
                                  else Transact(store.desk, mid, sent))
              && (result.RunRow? ==>
                    var reply := Answer(store.desk, mid, sent);
                    && OwnRow(reply).Some? && OwnRow(reply).value in store.ledger.runs
                    && (result.row == OwnRow(reply).value <==> result.row.actor.agent == c.actor)
                    && (reply.Fresh? ==> (result.row == OwnRow(reply).value <==> RunNamed(mid.runs, c.asg, c.requestId).None?)))
    ensures forall row :: executed && Decide(store.desk, After(store.desk, old(store.ledger), during), sent) == Commit(AddRun(row))
              ==> MeasuredUnder(old(store.ledger), row) && MeasuredUnder(After(store.desk, old(store.ledger), during), row)
  {
    hide Sound, Transact, After, Answer, CheckRunEligibility, MeasuredUnder, Decide, Grows, OwnRow, Succeeded;
    executed, sent := false, c;
    ghost var d, start := store.desk, store.ledger;
    var gate := ActorGate(store.ledger, c.actor, true);
    if gate.Denied? || gate.tuple.membership != membership { return RunRefused, false, c; }
    if c.asg !in store.ledger.assignments || EffectiveOwner(store.ledger, c.asg).tuple != gate.tuple { return RunRefused, false, c; }
    var replayed := RunNamed(store.ledger.runs, c.asg, c.requestId);
    if replayed.Some? {
      if !ReplayMatches(store.ledger, replayed.value, c) { return RunRefused, false, c; }
      return RunRow(replayed.value), false, c;
    }
    if !store.ledger.assignments[c.asg].open { return RunRefused, false, c; }
    var e := CheckRunEligibility(store.desk, store.ledger, c.asg, c.rolloutId, c.checkId, c.definitionRevision, None);
    if e.Ineligible? { return RunRefused, false, c; }
    var candidate := CandidateNamed(store.ledger.candidates, c.asg, e.declaration.candidate);
    if candidate.None? || !freshBefore { return RunRefused, false, c; }
    executed := true;
    var command := Measured(c, e.declaration, status);
    sent := command;
    PinsHoldMeanwhile(d, start, during, command);
    StepsKeepSound(d, start, command, during);
    store.Meanwhile(during);
    if !freshAfter { return RunRefused, true, command; }
    ghost var mid := store.ledger;
    var reply := store.Commit(command);
    if !Succeeded(reply) { return RunRefused, true, command; }
    StepsKeepSound(d, mid, command, []);
    StepsKeepSound(d, store.ledger, command, later);
    GrownRuns(store.ledger, After(d, store.ledger, later));
    SuccessIsFound(d, mid, command, After(d, store.ledger, later).runs);
    RecordMeans(d, mid, command);
    store.Meanwhile(later);
    var row := RunNamed(store.ledger.runs, c.asg, c.requestId);
    if row.None? { return RunUnreadable, true, command; }
    return RunRow(row.value), true, command;
  }

  lemma GrownRuns(l: Ledger, l': Ledger)
    requires Grows(l, l')
    ensures l.runs <= l'.runs
  {
  }

  lemma PinsHoldMeanwhile(d: Desk, l: Ledger, during: seq<Action>, c: Command)
    requires Sound(d, l) && CarriesPins(d, l, c)
    ensures forall row :: Decide(d, After(d, l, during), c) == Commit(AddRun(row)) ==>
              MeasuredUnder(l, row) && MeasuredUnder(After(d, l, during), row)
  {
    hide Injective, Inv, Decide, CarriesPins, MeasuredUnder, SubmitsHaveRows;
    var done := if Run(d, l, during).Some? then during else [];
    assert Run(d, l, done) == Some(After(d, l, during));
    forall row | Decide(d, After(d, l, during), c) == Commit(AddRun(row))
      ensures MeasuredUnder(l, row) && MeasuredUnder(After(d, l, during), row)
    {
      MeasuredPinsHold(d, l, done, After(d, l, during), c, row);
    }
  }
}
