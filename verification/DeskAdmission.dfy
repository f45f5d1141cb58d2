/** When commands are admitted: exactly, over reachable ledgers and unsorted tables. */
module DeskAdmission {
  import opened Options
  import opened Streams
  import opened DeskLedger
  import opened DeskRules
  import opened DeskCommand
  import opened DeskOwnership
  import opened DeskAssignment
  import opened DeskCheckRunner
  import opened DeskRollout
  import opened DeskHandback
  import opened DeskStore
  import opened DeskInvariants
  import opened DeskHistory
  import opened DeskCustody

  /** An offer that still nominates the caller at the current ownership revision,
      with every pin of the acceptance current. */
  ghost predicate Acceptable(d: Desk, l: Ledger, c: Command, tuple: Seat)
    requires c.AcceptCustody? && c.asg in l.assignments
  {
    && (exists o <- l.offers :: o.offerId == c.offerId && o.asg == c.asg && o.to == tuple && Usable(l, o))
    && c.expectedOwnership == EffectiveOwner(l, c.asg).revision
    && c.expectedLedger == l.revision && c.expectedBrief == |BriefsOf(l.briefs, c.asg)|
    && |l.accepts| < d.limits.accepts
  }

  /** An acceptance commits exactly if its caller is a live lead on an open assignment
      and holds a usable offer with every pin current. */
  lemma AcceptCommitsExactly(d: Desk, acts: seq<Action>, l: Ledger, c: Command)
    requires Injective(d) && Run(d, EMPTY, acts) == Some(l) && c.AcceptCustody?
    ensures var gate := CustodyGate(l, c.actor, c.asg);
            Decide(d, l, c).Commit? <==> gate.Granted? && Acceptable(d, l, c, gate.tuple)
  {
    hide Injective, Inv, TableInv, Run, EffectiveOwner, BriefsOf, Ordered, CustodyGate, OfferNamed, Numbered;
    ReachableInv(d, acts);
    InvMeans(d, l);
    TablesMean(d, l);
    BriefCount(l, c.asg);
    OfferNamedMeans(l.offers, c.offerId, c.asg);
    var found := OfferNamed(l.offers, c.offerId, c.asg);
    forall o <- l.offers | o.offerId == c.offerId && o.asg == c.asg
      ensures found == Some(o)
    {
      NamedOffer(d, l, o, c.asg);
    }
    if found.Some? && c.asg in l.assignments && Usable(l, found.value) {
      UsableIsUnaccepted(d, acts, l, found.value);
    }
  }

  lemma OfferNamedMeans(offers: seq<Offer>, id: Id, a: Id)
    ensures var found := OfferNamed(offers, id, a);
            && (found.Some? ==> found.value in offers && found.value.offerId == id && found.value.asg == a)
            && (found.None? ==> forall o <- offers :: !(o.offerId == id && o.asg == a))
  {
  }

  lemma BriefCount(l: Ledger, a: Id)
    requires Ordered(l)
    ensures LastKey(BriefsOf(l.briefs, a), BriefRevision) == CurrentBrief(l, a) == |BriefsOf(l.briefs, a)|
  {
    assert Numbered(BriefsOf(l.briefs, a), BriefRevision);
    BriefsAreRead(l, a);
  }

  /** A brief is amended exactly by its live owner, on an open assignment, against
      the current revision; and a decision exactly then, against an existing brief it names. */
  lemma RecordsCommitExactly(d: Desk, l: Ledger, c: Command)
    requires Ordered(l) && (c.Amend? || c.AppendDecision?)
    ensures var gate := OwnerGate(l, c.actor, false, c.asg, AuthorityRequired, AuthorityRequired);
            var latest := |BriefsOf(l.briefs, c.asg)|;
            Decide(d, l, c).Commit? <==>
              && gate.Granted? && c.expectedBrief == latest
              && (if c.Amend? then |l.briefs| < d.limits.briefs
                  else c.affected == latest > 0 && |l.decisions| < d.limits.decisions)
  {
    hide OwnerGate, BriefsOf, DecisionsOf, Ordered, SortBy;
    BriefCount(l, c.asg);
    hide CurrentBrief;
  }

  /** The state a measured run must find, at any moment it is judged. */
  ghost predicate RunWindow(l: Ledger, a: Id, rollout: Id, check: Id, definitionRevision: nat) {
    var decls, defs := RolloutsOf(l.rollouts, a, rollout), DefinitionsOf(l.definitions, a, check);
    var moves := TransitionsOf(l.transitions, a, rollout);
    && decls != [] && defs != [] && moves != [] && moves[|moves| - 1].to.ChecksRunning?
    && definitionRevision == |defs| && defs[|defs| - 1].scopeId == decls[|decls| - 1].scopeId
    && var prior := RunsOf(l.runs, a, rollout, check, decls[|decls| - 1].candidate);
       && (forall r <- prior :: !r.status.Passed?)
       && (prior != [] ==> prior[0].definitionRevision == |defs| && |prior| < 1 + defs[|defs| - 1].maxRetries)
  }

  lemma LatestIsFound(defs: seq<Definition>)
    requires Numbered(defs, DefinitionRevision) && defs != []
    ensures AtRevision(defs, |defs|) == Some(defs[|defs| - 1])
  {
    assert DefinitionRevision(defs[|defs| - 1]) == |defs|;
    assert defs[|defs| - 1] in defs;
    LatestAtRevision(defs, |defs|);
  }

  /** The run gate admits exactly the runs whose window is open and whose pins are current. */
  lemma EligibleExactly(d: Desk, l: Ledger, a: Id, rollout: Id, check: Id, definitionRevision: nat, pins: Option<Pins>)
    requires Ordered(l)
    ensures CheckRunEligibility(d, l, a, rollout, check, definitionRevision, pins).Eligible? <==>
            && |l.runs| < d.limits.runs && RunWindow(l, a, rollout, check, definitionRevision)
            && (pins.Some? ==> var decl := RolloutsOf(l.rollouts, a, rollout)[|RolloutsOf(l.rollouts, a, rollout)| - 1];
                               pins.value == Pins(|RolloutsOf(l.rollouts, a, rollout)|, decl.candidate, decl.head))
  {
    hide Ordered, SortBy, AtRevision, RolloutsOf, DefinitionsOf, TransitionsOf, RunsOf, Numbered;
    RolloutIsRead(l, a, rollout);
    DefinitionsAreRead(l, a, check);
    var decls, defs := RolloutsOf(l.rollouts, a, rollout), DefinitionsOf(l.definitions, a, check);
    if decls != [] { RunsAreRead(l, a, rollout, check, decls[|decls| - 1].candidate); }
    if defs != [] { LatestIsFound(defs); }
    var e := CheckRunEligibility(d, l, a, rollout, check, definitionRevision, pins);
    if e.Eligible? {
      EligibleMeans(d, l, a, rollout, check, definitionRevision, pins);
    }
  }

  /** A measured outcome commits exactly if the live owning lead sends it, the window
      is open, and the pins it was measured under are the current ones. */
  lemma RunCommitsExactly(d: Desk, l: Ledger, c: Command)
    requires Ordered(l) && c.CommitRun?
    ensures Decide(d, l, c).Commit? <==>
            && OwnerGate(l, c.actor, true, c.asg, ActorMismatch, RolloutConflict).Granted?
            && |l.runs| < d.limits.runs && RunWindow(l, c.asg, c.rolloutId, c.checkId, c.definitionRevision)
            && var decl := RolloutsOf(l.rollouts, c.asg, c.rolloutId)[|RolloutsOf(l.rollouts, c.asg, c.rolloutId)| - 1];
               c.rolloutRevision == |RolloutsOf(l.rollouts, c.asg, c.rolloutId)| && c.candidate == decl.candidate && c.head == decl.head
  {
    hide Ordered, RolloutsOf, DefinitionsOf, TransitionsOf, RunsOf, OwnerGate, CheckRunEligibility;
    EligibleExactly(d, l, c.asg, c.rolloutId, c.checkId, c.definitionRevision, Some(Pins(c.rolloutRevision, c.candidate, c.head)));
  }

  /** The gates of a transition, over the raw streams. */
  ghost predicate GatesOpen(d: Desk, l: Ledger, c: Command, decl: Rollout, moves: seq<Transition>)
    requires c.Move? && c.asg in l.assignments
  {
    && CarriedBy(d, l, c).Carried?
    && (CheckGated(c.command) ==> forall required <- decl.required :: Qualifying(l.runs, decl, required) != [])
    && ReviewGate(d, l, c, decl).Reviewed?
    && (CohortGated(c.command) ==>
          PinnedCohort(moves).Some? && PinnedCohort(moves).value.digest == d.cohortSha(RosterPin(l, c.asg)))
  }

  lemma {:induction false} DischargedExactly(runs: seq<CheckRun>, decl: Rollout, required: seq<Required>)
    ensures Discharges(runs, decl, required).Some? <==> forall r <- required :: Qualifying(runs, decl, r) != []
  {
    hide Qualifying;
    if required != [] {
      var init, last := required[..|required| - 1], required[|required| - 1];
      DischargedExactly(runs, decl, init);
      LastIsMember(Qualifying(runs, decl, last), Attempt);
      assert required == init + [last];
    }
  }

  /** A transition commits exactly if the live owning lead sends it against the latest
      declaration, the edge exists, and every gate on the command is open. */
  lemma MoveCommitsExactly(d: Desk, l: Ledger, c: Command)
    requires Ordered(l) && c.Move?
    ensures var decls, moves := RolloutsOf(l.rollouts, c.asg, c.rolloutId), TransitionsOf(l.transitions, c.asg, c.rolloutId);
            Decide(d, l, c).Commit? <==>
              && OwnerGate(l, c.actor, true, c.asg, ActorMismatch, RolloutConflict).Granted?
              && decls != [] && c.rolloutRevision == |decls| && moves != []
              && d.edge(moves[|moves| - 1].to, c.command).Some? && |l.transitions| < d.limits.transitions
              && GatesOpen(d, l, c, decls[|decls| - 1], moves)
  {
    hide Ordered, RolloutsOf, TransitionsOf, OwnerGate, CarriedBy, ReviewGate, Discharges, Qualifying, PinnedCohort, RosterPin, EffectiveOwner;
    RolloutIsRead(l, c.asg, c.rolloutId);
    var decls := RolloutsOf(l.rollouts, c.asg, c.rolloutId);
    if decls != [] { DischargedExactly(l.runs, decls[|decls| - 1], decls[|decls| - 1].required); }
  }

  /** Observing one's own pending handback records the capture, or its failure; observing
      it again changes nothing; anything else about it is refused. */
  lemma ObserveExactly(d: Desk, l: Ledger, c: Command, h: Handback)
    requires Injective(d) && HandbackInv(d, l) && c.ObserveHandback? && h in l.handbacks && h.handbackId == c.handbackId
    ensures var o := Decide(d, l, c);
            if !ActorGate(l, c.actor, false).Granted? || h.agent != c.actor then o.Refused?
            else if !h.observed.Pending? then o == Commit(Nothing)
            else if c.capture.repository != h.observed.repository then o.Refused?
            else if c.capture.MeasuredAt? then
              if |l.candidates| >= d.limits.candidates then o.Refused?
              else o.Commit? && o.write.Observe? && o.write.handbackId == h.handbackId && o.write.captured.Some?
                   && o.write.captured.value.snapshot == c.capture.snapshot && o.write.captured.value.head == c.capture.head
            else o.Commit? && o.write.Observe? && o.write.handbackId == h.handbackId && o.write.observed.CaptureFailed?
  {
    hide Injective, ActorGate;
    var found := HandbackNamed(l.handbacks, c.handbackId);
    assert found.Some? && found.value in l.handbacks;
    OneHandbackPerId(d, l, found.value, h);
  }
}
