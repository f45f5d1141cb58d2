/** A run whose answer is not its own: custody moves away and back while it is measured,
    and the other lead commits a run of its own under the same request id. */
module DeskRace {
  import opened Options
  import opened Streams
  import opened DeskLedger
  import opened DeskRules
  import opened DeskCommand
  import opened DeskOwnership
  import opened DeskCheckRunner
  import opened DeskRollout
  import opened DeskStore
  import opened DeskInvariants
  import opened DeskHistory
  import opened DeskCustody
  import opened DeskAdmission
  import opened DeskEvidence
  import opened DeskConvergence
  import opened DeskPromotion
  import opened DeskProgress
  import opened DeskWitness

  function Started(d: Desk): Transition {
    Transition(d.derive(TransitionId, [1, Asg(d), ROLLOUT, 3, 1]), Asg(d), ROLLOUT, 3, 2, Some(StartChecks), Some(Declared),
               ChecksRunning, 1, 1, None, None, [], [], None)
  }

  function There(d: Desk): Offer {
    Offer(d.derive(OfferId, [1, Asg(d), 4]), Asg(d), 4, 0, LEAD, MATE, 0)
  }

  function Back(d: Desk): Offer {
    Offer(d.derive(OfferId, [2, Asg(d), 6]), Asg(d), 6, 1, MATE, LEAD, 0)
  }

  function WentThere(d: Desk, revision: nat): Accept {
    Accept(d.derive(AcceptId, [2, Asg(d), 5]), There(d).offerId, Asg(d), 5, 1, LEAD, MATE, revision, 0, false, 0)
  }

  function WentBack(d: Desk, revision: nat): Accept {
    Accept(d.derive(AcceptId, [1, Asg(d), 8]), Back(d).offerId, Asg(d), 8, 2, MATE, LEAD, revision, 0, false, 0)
  }

  function MatesRun(d: Desk): CheckRun {
    CheckRun(d.derive(RunId, [2, Asg(d), ROLLOUT, CHECK.checkId, 9]), Asg(d), ROLLOUT, CHECK.checkId, 9, 1, 1, CHECK.digest,
             SNAPSHOT, None, Failed, 1, None, MATE, 0)
  }

  function OwnRun(d: Desk): CheckRun {
    CheckRun(d.derive(RunId, [1, Asg(d), ROLLOUT, CHECK.checkId, 9]), Asg(d), ROLLOUT, CHECK.checkId, 9, 1, 1, CHECK.digest,
             SNAPSHOT, None, Passed, 2, Some(MatesRun(d).runId), LEAD, 0)
  }

  function RunBy(d: Desk, actor: Id, status: Status): Command {
    CommitRun(9, actor, Asg(d), ROLLOUT, CHECK.checkId, 1, 1, SNAPSHOT, None, status, 0)
  }

  /** The tables after each step. */
  function Measuring(d: Desk): Ledger {
    Ready(d).(transitions := [Opening(d, DeclareIt(d), LEAD), Started(d)])
  }

  function Offered(d: Desk): Ledger {
    Measuring(d).(offers := [There(d)])
  }

  function Away(d: Desk, r: nat): Ledger {
    Offered(d).(accepts := [WentThere(d, r)])
  }

  function MateRan(d: Desk, r: nat): Ledger {
    Away(d, r).(runs := [MatesRun(d)])
  }

  function OfferedBack(d: Desk, r: nat): Ledger {
    MateRan(d, r).(offers := [There(d), Back(d)])
  }

  function Returned(d: Desk, r: nat, q: nat): Ledger {
    OfferedBack(d, r).(accepts := [WentThere(d, r), WentBack(d, q)])
  }

  lemma StreamsHere(d: Desk, l: Ledger)
    requires l.rollouts == Ready(d).rollouts && l.definitions == Ready(d).definitions && l.briefs == []
    requires l.transitions == Ready(d).transitions || l.transitions == Measuring(d).transitions
    ensures SortBy(RolloutsOf(l.rollouts, Asg(d), ROLLOUT), RolloutRevision) == [Declaration(d)]
    ensures SortBy(DefinitionsOf(l.definitions, Asg(d), CHECK.checkId), DefinitionRevision) == Checked(d).definitions
    ensures SortBy(TransitionsOf(l.transitions, Asg(d), ROLLOUT), TransitionRevision) == l.transitions
    ensures LastKey(BriefsOf(l.briefs, Asg(d)), BriefRevision) == 0
  {
    var a, opening := Asg(d), Opening(d, DeclareIt(d), LEAD);
    FilterOne(Declaration(d), (r: Rollout) => r.asg == a && r.rolloutId == ROLLOUT);
    FilterOne(l.definitions[0], (r: Definition) => r.asg == a && r.checkId == CHECK.checkId);
    FilterOne(opening, (r: Transition) => r.asg == a && r.rolloutId == ROLLOUT);
    TransitionsAppend([opening], Started(d), a, ROLLOUT);
    assert [opening] + [Started(d)] == Measuring(d).transitions;
    NumberedIsSorted([Declaration(d)], RolloutRevision);
    NumberedIsSorted(l.definitions, DefinitionRevision);
    NumberedIsSorted(l.transitions, TransitionRevision);
  }

  /** Who owns the assignment after no, one and two successions. */
  lemma OwnerHere(d: Desk, l: Ledger, r: nat, q: nat)
    requires l.assignments == Ready(d).assignments
    ensures l.accepts == [] ==> EffectiveOwner(l, Asg(d)) == Owner(LEAD, 0)
    ensures l.accepts == [WentThere(d, r)] ==> EffectiveOwner(l, Asg(d)) == Owner(MATE, 1)
    ensures l.accepts == [WentThere(d, r), WentBack(d, q)] ==> EffectiveOwner(l, Asg(d)) == Owner(LEAD, 2)
  {
    var a, one, two := Asg(d), WentThere(d, r), WentBack(d, q);
    FilterOne(one, (x: Accept) => x.asg == a);
    AcceptsAppend([one], two, a);
    assert [one] + [two] == [one, two];
    if l.accepts == [one] || l.accepts == [one, two] || l.accepts == [] {
      assert AcceptsOf(l.accepts, a) == l.accepts;
      assert Numbered(l.accepts, AcceptRevision);
      OwnerIsLatest(l, a);
    }
  }

  lemma LeadsAreLive(d: Desk, l: Ledger)
    requires l.members == MEMBERS
    ensures ActorGate(l, 1, true) == Granted(LEAD) && ActorGate(l, 2, true) == Granted(MATE) && IsLead(l, LEAD) && IsLead(l, MATE)
  {
  }

  /** The fields that the commands here read, whatever was recorded around them. */
  ghost predicate Stage(d: Desk, l: Ledger) {
    && l.members == MEMBERS && l.assignments == Ready(d).assignments && l.rollouts == Ready(d).rollouts
    && l.definitions == Ready(d).definitions && l.briefs == []
    && (l.transitions == Ready(d).transitions || l.transitions == Measuring(d).transitions)
    && Asg(d) in l.assignments && l.assignments[Asg(d)].open
  }

  lemma OnStage(d: Desk, l: Ledger, r: nat, q: nat)
    requires Same(l, Ready(d)) || Same(l, Measuring(d)) || Same(l, Offered(d)) || Same(l, Away(d, r)) || Same(l, MateRan(d, r))
             || Same(l, OfferedBack(d, r)) || Same(l, Returned(d, r, q))
    ensures Stage(d, l)
  {
  }

  lemma LeadHasGate(d: Desk, l: Ledger, r: nat, q: nat)
    requires Stage(d, l)
    ensures l.accepts == [] || l.accepts == [WentThere(d, r), WentBack(d, q)] ==>
              OwnerGate(l, 1, true, Asg(d), ActorMismatch, RolloutConflict) == Granted(LEAD)
    ensures l.accepts == [WentThere(d, r)] ==> OwnerGate(l, 2, true, Asg(d), ActorMismatch, RolloutConflict) == Granted(MATE)
  {
    hide EffectiveOwner, ActorGate, Ready, WentThere, WentBack;
    LeadsAreLive(d, l);
    OwnerHere(d, l, r, q);
  }

  lemma StartCommits(d: Desk, l: Ledger)
    requires Same(l, Ready(d)) && Permissive(d) && Shipped(d)
    ensures Decide(d, l, MoveCommand(TheCourse(d), 3, StartChecks)) == Commit(AddTransition(Started(d)))
  {
    hide SortBy, EffectiveOwner, ActorGate, Shipped, OwnerGate, RolloutsOf, TransitionsOf, CohortNow, RosterPin, Discharges, PinnedCohort;
    hide ScopesOf, CandidateNamed, RunsOf, Stage;
    OnStage(d, l, 0, 0);
    LeadHasGate(d, l, 0, 0);
    StreamsHere(d, l);
    PathEdges(d);
  }

  lemma OfferCommits(d: Desk, l: Ledger)
    requires Same(l, Measuring(d)) && Permissive(d)
    ensures Decide(d, l, OfferCustody(4, 1, Asg(d), 0, MATE, 0)) == Commit(AddOffer(There(d)))
  {
    OwnerHere(d, l, 0, 0);
    LeadsAreLive(d, l);
    hide EffectiveOwner, ActorGate;
  }

  lemma AcceptCommits(d: Desk, l: Ledger)
    requires Same(l, Offered(d)) && Permissive(d)
    ensures Decide(d, l, AcceptCustody(5, 2, Asg(d), There(d).offerId, 0, l.revision, 0, false, 0)) == Commit(AddAccept(WentThere(d, l.revision)))
  {
    hide EffectiveOwner, ActorGate, BriefsOf, SortBy, LastKey, Permissive;
    OwnerHere(d, l, 0, 0);
    LeadsAreLive(d, l);
    StreamsHere(d, l);
    assert d.limits.accepts >= PLENTY by { RoomForAccepts(d); }
    assert l.accepts == [] && l.offers == [There(d)];
    assert OfferNamed(l.offers, There(d).offerId, Asg(d)) == Some(There(d));
    hide Ready, Stage, OfferNamed;
  }

  /** The gate on a run of the check, before the first run and after one failed run. */
  lemma RunIsEligible(d: Desk, l: Ledger, pins: Option<Pins>)
    requires Stage(d, l) && Permissive(d) && l.transitions == Measuring(d).transitions && (l.runs == [] || l.runs == [MatesRun(d)])
    requires pins.Some? ==> pins.value == Pins(1, SNAPSHOT, None)
    ensures CheckRunEligibility(d, l, Asg(d), ROLLOUT, CHECK.checkId, 1, pins) == Eligible(Checked(d).definitions[0], Declaration(d), l.runs)
  {
    hide SortBy, RunsOf, RolloutsOf, TransitionsOf, DefinitionsOf, AtRevision;
    StreamsHere(d, l);
    PriorRuns(d, l.runs);
    DefinedFirst(d);
  }

  lemma PriorRuns(d: Desk, runs: seq<CheckRun>)
    requires runs == [] || runs == [MatesRun(d)]
    ensures SortBy(RunsOf(runs, Asg(d), ROLLOUT, CHECK.checkId, SNAPSHOT), Attempt) == runs
  {
    var a := Asg(d);
    FilterOne(MatesRun(d), (x: CheckRun) => x.asg == a && x.rolloutId == ROLLOUT && x.checkId == CHECK.checkId && x.candidate == SNAPSHOT);
    NumberedIsSorted(runs, Attempt);
  }

  lemma DefinedFirst(d: Desk)
    ensures AtRevision(Checked(d).definitions, 1) == Some(Checked(d).definitions[0]) && LastKey(Checked(d).definitions, DefinitionRevision) == 1
  {
  }

  lemma MateRunCommits(d: Desk, l: Ledger, r: nat)
    requires Same(l, Away(d, r)) && Permissive(d)
    ensures Decide(d, l, RunBy(d, 2, Failed)) == Commit(AddRun(MatesRun(d)))
  {
    hide OwnerGate, CheckRunEligibility, Stage;
    OnStage(d, l, r, 0);
    LeadHasGate(d, l, r, 0);
    RunIsEligible(d, l, Some(Pins(1, SNAPSHOT, None)));
  }

  lemma OfferBackCommits(d: Desk, l: Ledger, r: nat)
    requires Same(l, MateRan(d, r)) && Permissive(d)
    ensures Decide(d, l, OfferCustody(6, 2, Asg(d), 1, LEAD, 0)) == Commit(AddOffer(Back(d)))
  {
    OwnerHere(d, l, r, 0);
    LeadsAreLive(d, l);
    hide EffectiveOwner, ActorGate;
  }

  lemma BackIsNamed(d: Desk)
    requires Injective(d)
    ensures OfferNamed([There(d), Back(d)], Back(d).offerId, Asg(d)) == Some(Back(d)) && There(d).offerId != Back(d).offerId
  {
    if There(d).offerId == Back(d).offerId { ThreeParts(d, OfferId, [1, Asg(d), 4], [2, Asg(d), 6]); }
    hide Injective;
    OfferNamedMeans([There(d), Back(d)], Back(d).offerId, Asg(d));
    hide OfferNamed;
    assert [There(d), Back(d)][1] == Back(d);
  }

  lemma RoomForAccepts(d: Desk)
    requires Permissive(d)
    ensures d.limits.accepts >= PLENTY
  {
  }

  lemma AcceptBackCommits(d: Desk, l: Ledger, r: nat)
    requires Same(l, OfferedBack(d, r)) && Permissive(d) && Injective(d)
    ensures Decide(d, l, AcceptCustody(8, 1, Asg(d), Back(d).offerId, 1, l.revision, 0, false, 0)) == Commit(AddAccept(WentBack(d, l.revision)))
  {
    hide EffectiveOwner, ActorGate, OfferNamed, Injective, BriefsOf, SortBy, LastKey, Permissive;
    OwnerHere(d, l, r, 0);
    LeadsAreLive(d, l);
    StreamsHere(d, l);
    BackIsNamed(d);
    assert d.limits.accepts >= PLENTY by { RoomForAccepts(d); }
    assert l.accepts == [WentThere(d, r)];
    hide Ready, Stage;
  }

  lemma OwnRunCommits(d: Desk, l: Ledger, r: nat, q: nat)
    requires Same(l, Returned(d, r, q)) && Permissive(d)
    ensures Decide(d, l, RunBy(d, 1, Passed)) == Commit(AddRun(OwnRun(d)))
  {
    hide OwnerGate, CheckRunEligibility, Stage;
    OnStage(d, l, r, q);
    LeadHasGate(d, l, r, q);
    RunIsEligible(d, l, Some(Pins(1, SNAPSHOT, None)));
  }

  /** Each step turns the tables before it into those after it. */
  lemma StepsApply(d: Desk, r: nat, q: nat)
    ensures Same(Apply(Ready(d), AddTransition(Started(d))), Measuring(d))
    ensures Same(Apply(Measuring(d), AddOffer(There(d))), Offered(d))
    ensures Same(Apply(Offered(d), AddAccept(WentThere(d, r))), Away(d, r))
    ensures Same(Apply(Away(d, r), AddRun(MatesRun(d))), MateRan(d, r))
    ensures Same(Apply(MateRan(d, r), AddOffer(Back(d))), OfferedBack(d, r))
    ensures Same(Apply(OfferedBack(d, r), AddAccept(WentBack(d, q))), Returned(d, r, q))
  {
    hide There, Back, WentThere, WentBack, MatesRun, Started, Opening, Declaration, Asg;
  }

  /** The requests of the race are used in this order. */
  lemma KeysInOrder(d: Desk, r: nat, q: nat)
    ensures KeyOf(MoveCommand(TheCourse(d), 3, StartChecks)) == KeyAt(d, 7)
    ensures KeyOf(OfferCustody(4, 1, Asg(d), 0, MATE, 0)) == KeyAt(d, 8)
    ensures KeyOf(AcceptCustody(5, 2, Asg(d), There(d).offerId, 0, r, 0, false, 0)) == KeyAt(d, 9)
    ensures KeyOf(RunBy(d, 2, Failed)) == KeyAt(d, 10)
    ensures KeyOf(OfferCustody(6, 2, Asg(d), 1, LEAD, 0)) == KeyAt(d, 11)
    ensures KeyOf(AcceptCustody(8, 1, Asg(d), Back(d).offerId, 1, q, 0, false, 0)) == KeyAt(d, 12)
  {
    hide There, Back, Asg;
  }

  /** The run up to checks-running, where the first lead measures. */
  lemma ReachRunning(d: Desk) returns (acts: seq<Action>, l: Ledger)
    requires Permissive(d) && Shipped(d)
    ensures Reached(d, acts, l, Measuring(d), 8)
  {
    assert d.limits.requests >= PLENTY;
    hide Decide, Reached, Run, Shipped, Same, Permissive, Apply, Ready, Measuring, KeyAt, KeyOf, MoveCommand, Started;
    StepsApply(d, 0, 0);
    KeysInOrder(d, 0, 0);
    acts, l := ReachReady(d);
    ReachedMeans(d, acts, l, Ready(d), 7);
    StartCommits(d, l);
    acts, l := Onward(d, acts, l, Ready(d), 7, MoveCommand(TheCourse(d), 3, StartChecks), AddTransition(Started(d)), Measuring(d));
  }

  lemma Written(d: Desk, l: Ledger, tables: Ledger, w: Write, tables': Ledger)
    requires Same(l, tables) && Same(Apply(tables, w), tables')
    ensures Same(Apply(l, w), tables')
  {
  }

  /** One step of the race. */
  lemma Onward(d: Desk, acts: seq<Action>, l: Ledger, tables: Ledger, n: nat, c: Command, w: Write, tables': Ledger)
    returns (acts': seq<Action>, l': Ledger)
    requires Reached(d, acts, l, tables, n) && KeyOf(c) == KeyAt(d, n) && n < d.limits.requests
    requires Decide(d, l, c) == Commit(w) && Same(Apply(tables, w), tables')
    ensures Reached(d, acts', l', tables', n + 1) && Same(l', tables') && acts <= acts'
  {
    hide Decide, Reached, Run, Apply, Same, KeyAt;
    ReachedMeans(d, acts, l, tables, n);
    Written(d, l, tables, w, tables');
    acts', l' := Reach(d, acts, l, tables, n, c, tables');
    ReachedMeans(d, acts', l', tables', n + 1);
  }

  /** Custody moves away and the other lead runs the check. */
  lemma ReachMateRan(d: Desk, acts: seq<Action>, l: Ledger) returns (acts': seq<Action>, l': Ledger, r: nat)
    requires Permissive(d) && Reached(d, acts, l, Measuring(d), 8)
    ensures Reached(d, acts', l', MateRan(d, r), 11) && acts <= acts'
  {
    assert d.limits.requests >= PLENTY;
    hide Decide, Reached, Run, Permissive, Same, Apply, Measuring, Offered, Away, MateRan, KeyAt, KeyOf;
    KeysInOrder(d, 0, 0);
    ReachedMeans(d, acts, l, Measuring(d), 8);
    StepsApply(d, 0, 0);
    OfferCommits(d, l);
    var a1, l1 := Onward(d, acts, l, Measuring(d), 8, OfferCustody(4, 1, Asg(d), 0, MATE, 0), AddOffer(There(d)), Offered(d));
    r := l1.revision;
    KeysInOrder(d, r, 0);
    StepsApply(d, r, 0);
    AcceptCommits(d, l1);
    var a2, l2 := Onward(d, a1, l1, Offered(d), 9, AcceptCustody(5, 2, Asg(d), There(d).offerId, 0, r, 0, false, 0),
                         AddAccept(WentThere(d, r)), Away(d, r));
    MateRunCommits(d, l2, r);
    acts', l' := Onward(d, a2, l2, Away(d, r), 10, RunBy(d, 2, Failed), AddRun(MatesRun(d)), MateRan(d, r));
  }

  /** And custody comes back. */
  lemma ReachReturned(d: Desk, acts: seq<Action>, l: Ledger, r: nat) returns (acts': seq<Action>, l': Ledger, q: nat)
    requires Injective(d) && Permissive(d) && Reached(d, acts, l, MateRan(d, r), 11)
    ensures Reached(d, acts', l', Returned(d, r, q), 13) && acts <= acts'
  {
    assert d.limits.requests >= PLENTY;
    hide Decide, Reached, Run, Injective, Permissive, Same, Apply, MateRan, OfferedBack, Returned, KeyAt, KeyOf;
    KeysInOrder(d, r, 0);
    StepsApply(d, r, 0);
    ReachedMeans(d, acts, l, MateRan(d, r), 11);
    OfferBackCommits(d, l, r);
    var a1, l1 := Onward(d, acts, l, MateRan(d, r), 11, OfferCustody(6, 2, Asg(d), 1, LEAD, 0), AddOffer(Back(d)), OfferedBack(d, r));
    q := l1.revision;
    KeysInOrder(d, r, q);
    StepsApply(d, r, q);
    AcceptBackCommits(d, l1, r);
    acts', l' := Onward(d, a1, l1, OfferedBack(d, r), 12, AcceptCustody(8, 1, Asg(d), Back(d).offerId, 1, q, 0, false, 0),
                        AddAccept(WentBack(d, q)), Returned(d, r, q));
  }

  lemma RaceOn(d: Desk) returns (acts: seq<Action>, l: Ledger, during: seq<Action>, mid: Ledger)
    requires Injective(d) && Permissive(d) && Shipped(d)
    ensures Run(d, EMPTY, acts) == Some(l) && Run(d, l, during) == Some(mid)
    ensures var c := RunBy(d, 1, Passed);
            && CarriesPins(d, l, c) && RunNamed(l.runs, c.asg, c.requestId).None?
            && Answer(d, mid, c) == Fresh(Commit(AddRun(OwnRun(d))))
            && RunNamed(Transact(d, mid, c).runs, c.asg, c.requestId) == Some(MatesRun(d))
  {
    hide Injective, Shipped, Permissive, Run, Reached, Decide, CarriesPins, RunNamed, OwnRun, MatesRun;
    acts, l := ReachRunning(d);
    ReachedMeans(d, acts, l, Measuring(d), 8);
    var a1, l1, r := ReachMateRan(d, acts, l);
    var a2, q;
    a2, mid, q := ReachReturned(d, a1, l1, r);
    ReachedMeans(d, a2, mid, Returned(d, r, q), 13);
    during := a2[|acts|..];
    assert a2 == acts + during;
    RunSplits(d, EMPTY, acts, during);
    RaceEnds(d, l, mid, r, q);
    RequestIsFresh(d, a2, mid, Returned(d, r, q));
    hide Measuring, Returned;
  }

  /** A run whose answer is not its own: measured as passed and committed under pins that
      held throughout, while the lookup for its request finds the failed run of the other
      lead who held custody in between. */
  lemma AnotherLeadsRowIsFound() returns (d: Desk, acts: seq<Action>, l: Ledger, during: seq<Action>, mid: Ledger, own: CheckRun, other: CheckRun)
    ensures Injective(d) && Run(d, EMPTY, acts) == Some(l) && Run(d, l, during) == Some(mid)
    ensures var c := RunBy(d, 1, Passed);
            && CarriesPins(d, l, c) && RunNamed(l.runs, c.asg, c.requestId).None?
            && Answer(d, mid, c) == Fresh(Commit(AddRun(own))) && own.status.Passed?
            && RunNamed(Transact(d, mid, c).runs, c.asg, c.requestId) == Some(other)
            && other.actor != own.actor && other.status.Failed?
  {
    hide Injective, Shipped, Permissive, Plain, InjectiveCohorts, Answer, Transact, CarriesPins, RunNamed, Run;
    PlainIsInjective();
    d := Plain();
    acts, l, during, mid := RaceOn(d);
    own, other := OwnRun(d), MatesRun(d);
  }

  lemma RequestIsFresh(d: Desk, acts: seq<Action>, l: Ledger, tables: Ledger)
    requires Permissive(d) && Reached(d, acts, l, tables, 13)
    ensures RequestKey(1, Some(Asg(d)), 9) !in l.requests && |l.requests| < d.limits.requests
  {
  }

  lemma RaceEnds(d: Desk, l: Ledger, mid: Ledger, r: nat, q: nat)
    requires Permissive(d) && Same(l, Measuring(d)) && Same(mid, Returned(d, r, q))
    ensures CarriesPins(d, l, RunBy(d, 1, Passed)) && RunNamed(l.runs, Asg(d), 9).None?
    ensures Decide(d, mid, RunBy(d, 1, Passed)) == Commit(AddRun(OwnRun(d)))
    ensures RunNamed(mid.runs + [OwnRun(d)], Asg(d), 9) == Some(MatesRun(d))
  {
    hide CheckRunEligibility, Decide, Stage, Permissive;
    OnStage(d, l, 0, 0);
    RunIsEligible(d, l, None);
    OwnRunCommits(d, mid, r, q);
    assert mid.runs == [MatesRun(d)];
    assert (mid.runs + [OwnRun(d)])[0] == MatesRun(d);
  }
}
