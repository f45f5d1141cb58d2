/** A closed assignment takes nothing new, in any later run. */
module DeskClosure {
  import opened Options
  import opened Streams
  import opened DeskLedger
  import opened DeskRules
  import opened DeskStore
  import opened DeskInvariants
  import opened DeskHistory

  /** A candidate that an already pending handback of the assignment can still produce. */
  ghost predicate FromPending(d: Desk, l: Ledger, a: Id, c: Candidate) {
    exists h <- l.handbacks :: h.asg == a && h.observed.Pending? && c.candidateId == d.derive(CandidateId, [h.handbackId])
  }

  ghost predicate NothingNew(d: Desk, l: Ledger, l': Ledger, a: Id) {
    && (forall k :: |l.offers| <= k < |l'.offers| ==> l'.offers[k].asg != a)
    && (forall k :: |l.accepts| <= k < |l'.accepts| ==> l'.accepts[k].asg != a)
    && (forall k :: |l.briefs| <= k < |l'.briefs| ==> l'.briefs[k].entry.asg != a)
    && (forall k :: |l.decisions| <= k < |l'.decisions| ==> l'.decisions[k].entry.asg != a)
    && (forall k :: |l.definitions| <= k < |l'.definitions| ==> l'.definitions[k].asg != a)
    && (forall k :: |l.runs| <= k < |l'.runs| ==> l'.runs[k].asg != a)
    && (forall k :: |l.rollouts| <= k < |l'.rollouts| ==> l'.rollouts[k].asg != a)
    && (forall k :: |l.transitions| <= k < |l'.transitions| ==> l'.transitions[k].asg != a)
    && (forall k :: |l.handbacks| <= k < |l'.handbacks| ==> l'.handbacks[k].asg != a)
    && (forall k :: |l.candidates| <= k < |l'.candidates| ==> l'.candidates[k].asg == a ==> FromPending(d, l, a, l'.candidates[k]))
  }

  predicate IsClosed(l: Ledger, a: Id) {
    a in l.assignments && !l.assignments[a].open
  }

  lemma WriteAddsNothing(d: Desk, l: Ledger, w: Write, a: Id)
    requires Legal(d, l, w) && IsClosed(l, a)
    ensures NothingNew(d, l, Apply(l, w), a)
  {
    hide EffectiveOwner, AcceptsOf, BriefsOf, DecisionsOf, DefinitionsOf, RolloutsOf, TransitionsOf, RunsOf, GatesPassed, IsLive;
    if w.Observe? && w.captured.Some? {
      var h :| h in l.handbacks && h.handbackId == w.handbackId && h.observed.Pending?
        && w.captured.value.candidateId == d.derive(CandidateId, [h.handbackId]) && w.captured.value.asg == h.asg;
      assert w.captured.value.asg == a ==> FromPending(d, l, a, w.captured.value);
    }
  }

  lemma NextAddsNothing(d: Desk, l: Ledger, act: Action, a: Id)
    requires Ordered(l) && IsClosed(l, a) && Enabled(l, act)
    ensures NothingNew(d, l, Next(d, l, act), a)
  {
    hide Decide, Legal, Ordered, Apply;
    if act.Submit? && Answer(d, l, act.command).Fresh? && Decide(d, l, act.command).Commit? {
      DecisionsAreLegal(d, l, act.command);
      WriteAddsNothing(d, l, Decide(d, l, act.command).write, a);
    }
  }

  lemma NothingNewTransitively(d: Desk, x: Ledger, y: Ledger, z: Ledger, a: Id)
    requires Grows(x, y) && Grows(y, z) && NothingNew(d, x, y, a) && NothingNew(d, y, z, a)
    ensures NothingNew(d, x, z, a)
  {
    forall k | |x.candidates| <= k < |z.candidates| && z.candidates[k].asg == a
      ensures FromPending(d, x, a, z.candidates[k])
    {
      if k >= |y.candidates| {
        var h :| h in y.handbacks && h.asg == a && h.observed.Pending? && z.candidates[k].candidateId == d.derive(CandidateId, [h.handbackId]);
        var i :| 0 <= i < |y.handbacks| && y.handbacks[i] == h;
        assert ClaimKept(x.handbacks[i], h);
        assert x.handbacks[i] in x.handbacks;
      } else {
        assert z.candidates[k] == y.candidates[k];
      }
    }
  }

  /** After an assignment closes, no later run adds an offer, accept, brief,
      decision, seat, definition, run, declaration, transition or handback to it.
      What can still happen is that a handback already pending becomes observed. */
  lemma {:induction false} ClosedIsAbsorbing(d: Desk, l: Ledger, more: seq<Action>, a: Id)
    requires Injective(d) && Inv(d, l) && Run(d, l, more).Some? && IsClosed(l, a)
    ensures var l' := Run(d, l, more).value;
            Grows(l, l') && NothingNew(d, l, l', a) && l'.assignments[a] == l.assignments[a]
    decreases |more|
  {
    hide Injective, Inv, Next, NothingNew;
    HistoryIsKept(d, l, more);
    assert AssignmentKept(l, Run(d, l, more).value, a);
    if more == [] {
      NothingYetNew(d, l, a);
    } else {
      var before := more[..|more| - 1];
      ClosedIsAbsorbing(d, l, before, a);
      var w := Run(d, l, before).value;
      HistoryIsKept(d, l, before);
      InvMeans(d, w);
      TablesMean(d, w);
      NextAddsNothing(d, w, more[|more| - 1], a);
      NextGrows(d, w, more[|more| - 1]);
      NothingNewTransitively(d, l, w, Run(d, l, more).value, a);
    }
  }

  lemma NothingYetNew(d: Desk, l: Ledger, a: Id)
    ensures NothingNew(d, l, l, a)
  {
  }
}
