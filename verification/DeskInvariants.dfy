/** Invariants of every reachable ledger. */
module DeskInvariants {
  import opened Options
  import opened Streams
  import opened DeskLedger
  import opened DeskRules
  import opened DeskStore

  // ---------------------------------------------------------------- custody

  /** Succession `i` names as its source the tuple that the one before it installed. */
  ghost predicate CustodyChain(registered: Seat, rows: seq<Accept>) {
    forall i :: 0 <= i < |rows| ==> rows[i].from == Tuple(registered, rows, i)
  }

  /** An offer was made by the tuple that held custody at the revision it pins. */
  ghost predicate OfferPinned(l: Ledger, o: Offer) {
    && o.asg in l.assignments && o.revision <= |AcceptsOf(l.accepts, o.asg)|
    && o.from == Tuple(l.assignments[o.asg].owner, AcceptsOf(l.accepts, o.asg), o.revision)
  }

  ghost predicate CustodyInv(l: Ledger) {
    && (forall r <- l.accepts :: r.asg in l.assignments)
    && (forall a <- l.assignments :: CustodyChain(l.assignments[a].owner, AcceptsOf(l.accepts, a)))
    && (forall o <- l.offers :: OfferPinned(l, o))
  }

  // ------------------------------------------------------ briefs, decisions

  ghost predicate BriefLink(d: Desk, rows: seq<Brief>, i: nat)
    requires i < |rows|
  {
    && rows[i].entry.priorRevision == i
    && rows[i].entry.prior == (if i == 0 then None else Some(rows[i - 1].sha))
    && rows[i].sha == d.briefSha(rows[i].entry)
  }

  ghost predicate BriefChain(d: Desk, rows: seq<Brief>) {
    forall i :: 0 <= i < |rows| ==> BriefLink(d, rows, i)
  }

  ghost predicate DecisionLink(d: Desk, rows: seq<Decision>, i: nat, briefs: nat)
    requires i < |rows|
  {
    && rows[i].entry.prior == (if i == 0 then None else Some(rows[i - 1].sha))
    && rows[i].entry.priorId == (if i == 0 then None else Some(rows[i - 1].entry.decisionId))
    && 1 <= rows[i].entry.affected <= briefs
    && rows[i].sha == d.decisionSha(rows[i].entry)
  }

  /** `briefs` is the number of brief revisions that the decisions may name. */
  ghost predicate DecisionChain(d: Desk, rows: seq<Decision>, briefs: nat) {
    forall i :: 0 <= i < |rows| ==> DecisionLink(d, rows, i, briefs)
  }

  ghost predicate RecordInv(d: Desk, l: Ledger) {
    && (forall a: Id :: BriefChain(d, BriefsOf(l.briefs, a)))
    && (forall a: Id :: DecisionChain(d, DecisionsOf(l.decisions, a), |BriefsOf(l.briefs, a)|))
  }

  // ----------------------------------------------------------------- checks

  ghost predicate DefinitionChain(rows: seq<Definition>) {
    forall i :: 0 <= i < |rows| ==>
      && rows[i].prior == (if i == 0 then None else Some(i))
      && rows[i].scopeId == rows[0].scopeId && rows[i].maxRetries <= 1
  }

  ghost predicate RetryLink(runs: seq<CheckRun>, i: nat)
    requires i < |runs|
  {
    && runs[i].retryOf == (if i == 0 then None else Some(runs[i - 1].runId))
    && runs[i].definitionRevision == runs[0].definitionRevision
    && (i < |runs| - 1 ==> !runs[i].status.Passed?)
  }

  /** One check on one candidate: attempts linked by `retryOf`, one definition
      revision throughout, within its retry budget, and nothing after a pass. */
  ghost predicate RetryStream(runs: seq<CheckRun>, defs: seq<Definition>) {
    && (forall i :: 0 <= i < |runs| ==> RetryLink(runs, i))
    && (runs != [] ==>
          && 1 <= runs[0].definitionRevision <= |defs|
          && |runs| <= 1 + defs[runs[0].definitionRevision - 1].maxRetries
          && forall r <- runs :: r.definitionDigest == defs[runs[0].definitionRevision - 1].digest)
  }

  ghost predicate CheckInv(l: Ledger) {
    && (forall a: Id, check: Id :: DefinitionChain(DefinitionsOf(l.definitions, a, check)))
    && (forall a: Id, rollout: Id, check: Id, candidate: Sha ::
          RetryStream(RunsOf(l.runs, a, rollout, check, candidate), DefinitionsOf(l.definitions, a, check)))
  }

  // --------------------------------------------------------------- rollouts

  ghost predicate RolloutChain(rows: seq<Rollout>) {
    forall i :: 0 <= i < |rows| ==>
      rows[i].scopeId == rows[0].scopeId && rows[i].prior == (if i == 0 then None else Some(i))
  }

  /** Row `i` of a transition stream continues the machine from row `i - 1`. */
  ghost predicate LegalMove(d: Desk, rows: seq<Transition>, i: nat)
    requires i < |rows|
  {
    if i == 0 then rows[0].command == None && rows[0].from == None && rows[0].to == Declared && rows[0].cohort == None
    else
      && rows[i].command.Some? && rows[i].from == Some(rows[i - 1].to)
      && d.edge(rows[i - 1].to, rows[i].command.value) == Some(rows[i].to)
      && (rows[i].cohort.Some? <==> rows[i].command.value.StartCanary?)
      && (CohortGated(rows[i].command.value) ==>
            && PinnedCohort(rows[..i]).Some?
            && rows[i].cohortDigestAtGate == Some(PinnedCohort(rows[..i]).value.digest))
  }

  ghost predicate Machine(d: Desk, rows: seq<Transition>, decls: seq<Rollout>) {
    && (rows == [] <==> decls == [])
    && (forall i :: 0 <= i < |rows| ==> LegalMove(d, rows, i) && 1 <= rows[i].rolloutRevision <= |decls|)
  }

  ghost predicate RolloutInv(d: Desk, l: Ledger) {
    && (forall a: Id, rollout: Id :: RolloutChain(RolloutsOf(l.rollouts, a, rollout)))
    && (forall a: Id, rollout: Id :: Machine(d, TransitionsOf(l.transitions, a, rollout), RolloutsOf(l.rollouts, a, rollout)))
  }

  /** Each required check is discharged, in order, by a passed run on the pinned candidate and digest. */
  ghost predicate Evidence(runs: seq<CheckRun>, decl: Rollout, required: seq<Required>, checks: seq<Discharge>) {
    && |checks| == |required|
    && forall i :: 0 <= i < |required| ==> Discharged(runs, decl, required[i], checks[i])
  }

  ghost predicate Discharged(runs: seq<CheckRun>, decl: Rollout, required: Required, check: Discharge) {
    check.checkId == required.checkId && exists r <- runs :: r.runId == check.runId && Qualifies(r, decl, required)
  }

  ghost predicate GateEvidence(l: Ledger, t: Transition) {
    t.command.Some? && CheckGated(t.command.value) ==>
      var decls := RolloutsOf(l.rollouts, t.asg, t.rolloutId);
      && 1 <= t.rolloutRevision <= |decls|
      && var decl := decls[t.rolloutRevision - 1];
         Evidence(l.runs, decl, decl.required, t.checks)
  }

  ghost predicate EvidenceInv(l: Ledger) {
    && (forall t <- l.transitions :: GateEvidence(l, t))
    && (forall r <- l.rollouts :: ObservedCandidate(l, r.asg, r.candidate, r.head))
    && (forall r <- l.rollouts :: DistinctChecks(r.required))
  }

  predicate DistinctChecks(required: seq<Required>) {
    forall i, j :: 0 <= i < j < |required| ==> required[i].checkId != required[j].checkId
  }

  // -------------------------------------------------------------- handbacks

  function HandbackKey(h: Handback): RequestKey { RequestKey(h.agent, Some(h.asg), h.requestId) }
  function OfferKey(o: Offer): RequestKey { RequestKey(o.from.agent, Some(o.asg), o.requestId) }

  /** The candidate that a captured handback produced. */
  predicate Produced(h: Handback, c: Candidate) {
    && h.observed.Captured? && c.candidateId == h.observed.candidateId
    && c.asg == h.asg && c.seatAgent == h.agent && c.seatMembership == h.seatMembership
    && c.repository == h.observed.repository
  }

  ghost predicate HasCandidate(candidates: seq<Candidate>, h: Handback) {
    exists c <- candidates :: Produced(h, c)
  }

  ghost predicate HasHandback(handbacks: seq<Handback>, c: Candidate) {
    exists h <- handbacks :: Produced(h, c)
  }

  predicate DistinctHandbacks(hs: seq<Handback>) {
    forall i, j :: 0 <= i < j < |hs| ==> HandbackKey(hs[i]) != HandbackKey(hs[j])
  }

  predicate DistinctCandidates(cs: seq<Candidate>) {
    forall i, j :: 0 <= i < j < |cs| ==> cs[i].candidateId != cs[j].candidateId
  }

  ghost predicate DerivedIds(d: Desk, h: Handback) {
    && h.handbackId == d.derive(HandbackId, [h.agent, h.asg, h.requestId])
    && (h.observed.Captured? ==> h.observed.candidateId == d.derive(CandidateId, [h.handbackId]))
  }

  ghost predicate HandbackInv(d: Desk, l: Ledger) {
    && DistinctHandbacks(l.handbacks) && DistinctCandidates(l.candidates)
    && (forall h <- l.handbacks :: DerivedIds(d, h))
    && (forall h <- l.handbacks :: h.observed.Captured? ==> HasCandidate(l.candidates, h))
    && (forall c <- l.candidates :: HasHandback(l.handbacks, c))
  }

  // --------------------------------------------------------------- requests

  ghost predicate RequestInv(d: Desk, l: Ledger) {
    && (forall h <- l.handbacks :: HandbackKey(h) in l.requests)
    && (forall o <- l.offers :: OfferKey(o) in l.requests)
    && (forall i, j :: 0 <= i < j < |l.offers| ==> OfferKey(l.offers[i]) != OfferKey(l.offers[j]))
    && (forall o <- l.offers :: o.offerId == d.derive(OfferId, [o.from.agent, o.asg, o.requestId]))
  }

  /** Derived identifiers are distinct for distinct kinds or parts. */
  ghost predicate Injective(d: Desk) {
    forall k, p, k', p' :: d.derive(k, p) == d.derive(k', p') ==> k == k' && p == p'
  }

  ghost predicate TableInv(d: Desk, l: Ledger) {
    && Ordered(l) && CustodyInv(l) && RecordInv(d, l) && CheckInv(l) && RolloutInv(d, l) && EvidenceInv(l) && HandbackInv(d, l)
  }

  ghost predicate Inv(d: Desk, l: Ledger) {
    TableInv(d, l) && RequestInv(d, l)
  }

  // ------------------------------------------------------- custody is kept

  lemma OfferKeepsCustody(d: Desk, l: Ledger, row: Offer)
    requires Ordered(l) && CustodyInv(l) && OfferLegal(d, l, row)
    ensures CustodyInv(Apply(l, AddOffer(row)))
  {
    var l' := Apply(l, AddOffer(row));
    OwnerIsLatest(l, row.asg);
    hide EffectiveOwner, AcceptsOf, Ordered;
    forall o | o in l'.offers
      ensures OfferPinned(l', o)
    {
      if o != row { assert OfferPinned(l, o); }
    }
  }

  lemma CustodyAppend(registered: Seat, rows: seq<Accept>, row: Accept)
    requires CustodyChain(registered, rows) && row.from == Tuple(registered, rows, |rows|)
    ensures CustodyChain(registered, rows + [row])
  {
  }

  /** Appending an accept extends exactly its own assignment's stream. */
  lemma AcceptExtends(d: Desk, l: Ledger, row: Accept, a: Id)
    requires Ordered(l) && CustodyInv(l) && AcceptLegal(d, l, row)
    ensures var rows := AcceptsOf(l.accepts, a);
            && AcceptsOf(l.accepts + [row], a) == (if row.asg == a then rows + [row] else rows)
            && Numbered(AcceptsOf(l.accepts + [row], a), AcceptRevision)
            && (a in l.assignments ==> CustodyChain(l.assignments[a].owner, AcceptsOf(l.accepts + [row], a)))
  {
    AcceptsAppend(l.accepts, row, a);
    assert Numbered(AcceptsOf(l.accepts, a), AcceptRevision);
    hide AcceptsOf, EffectiveOwner;
    if a == row.asg {
      OwnerIsLatest(l, a);
      hide Ordered;
      var offer :| offer in l.offers && offer.offerId == row.offerId && offer.asg == row.asg && offer.from == row.from
                   && offer.revision + 1 == row.revision;
      assert OfferPinned(l, offer);
      NumberedAppend(AcceptsOf(l.accepts, a), row, AcceptRevision);
      CustodyAppend(l.assignments[a].owner, AcceptsOf(l.accepts, a), row);
    }
  }

  lemma AcceptKeepsCustody(d: Desk, l: Ledger, row: Accept)
    requires Ordered(l) && CustodyInv(l) && AcceptLegal(d, l, row)
    ensures CustodyInv(Apply(l, AddAccept(row)))
    ensures forall a: Id :: Numbered(AcceptsOf(l.accepts + [row], a), AcceptRevision)
  {
    hide EffectiveOwner, AcceptsOf, Ordered, CustodyChain, Numbered;
    var l' := Apply(l, AddAccept(row));
    forall a: Id
      ensures AcceptsOf(l.accepts, a) <= AcceptsOf(l'.accepts, a) && Numbered(AcceptsOf(l'.accepts, a), AcceptRevision)
      ensures a in l.assignments ==> CustodyChain(l.assignments[a].owner, AcceptsOf(l'.accepts, a))
    {
      AcceptExtends(d, l, row, a);
    }
    forall o | o in l'.offers
      ensures OfferPinned(l', o)
    {
      assert OfferPinned(l, o);
    }
  }

  /** Other writes leave the accepts and offers alone, and every assignment keeps its registered owner. */
  lemma OthersKeepCustody(d: Desk, l: Ledger, w: Write)
    requires CustodyInv(l) && Legal(d, l, w) && !w.AddOffer? && !w.AddAccept?
    ensures CustodyInv(Apply(l, w))
  {
    var l' := Apply(l, w);
    hide AcceptsOf, HandbackLegal, ObserveLegal, BriefLegal, DecisionLegal, DefinitionLegal, RunLegal, RolloutLegal, TransitionLegal;
    assert l'.accepts == l.accepts && l'.offers == l.offers;
    assert forall a <- l.assignments :: a in l'.assignments && l'.assignments[a].owner == l.assignments[a].owner;
    if w.AddAssignment? {
      NoAcceptsYet(l.accepts, w.asgId);
    }
    forall a | a in l'.assignments
      ensures CustodyChain(l'.assignments[a].owner, AcceptsOf(l'.accepts, a))
    {
    }
    forall o | o in l'.offers
      ensures OfferPinned(l', o)
    {
      assert OfferPinned(l, o);
    }
  }

  lemma {:induction false} NoAcceptsYet(rows: seq<Accept>, a: Id)
    requires forall r <- rows :: r.asg != a
    ensures AcceptsOf(rows, a) == []
  {
    if rows != [] {
      var init, last := rows[..|rows| - 1], rows[|rows| - 1];
      NoAcceptsYet(init, a);
      AcceptsAppend(init, last, a);
      assert rows == init + [last];
    }
  }

  // ------------------------------------------------------- records are kept

  lemma BriefAppend(d: Desk, rows: seq<Brief>, row: Brief)
    requires BriefChain(d, rows) && row.entry.priorRevision == |rows| && row.sha == d.briefSha(row.entry)
    requires row.entry.prior == (if rows == [] then None else Some(rows[|rows| - 1].sha))
    ensures BriefChain(d, rows + [row])
  {
    forall i | 0 <= i <= |rows|
      ensures BriefLink(d, rows + [row], i)
    {
      assert i == |rows| || BriefLink(d, rows, i);
    }
  }

  lemma MoreBriefs(d: Desk, rows: seq<Decision>, briefs: nat, more: nat)
    requires DecisionChain(d, rows, briefs) && briefs <= more
    ensures DecisionChain(d, rows, more)
  {
    forall i | 0 <= i < |rows|
      ensures DecisionLink(d, rows, i, more)
    {
      assert DecisionLink(d, rows, i, briefs);
    }
  }

  lemma BriefKeepsRecords(d: Desk, l: Ledger, row: Brief)
    requires Ordered(l) && RecordInv(d, l) && BriefLegal(d, l, row)
    ensures RecordInv(d, Apply(l, AddBrief(row)))
    ensures forall a: Id :: Numbered(BriefsOf(l.briefs + [row], a), BriefRevision)
  {
    hide BriefsOf, DecisionsOf, Owns;
    forall a: Id
      ensures var rows := BriefsOf(l.briefs + [row], a);
              && Numbered(rows, BriefRevision) && BriefChain(d, rows)
              && DecisionChain(d, DecisionsOf(l.decisions, a), |rows|)
    {
      var decisions := DecisionsOf(l.decisions, a);
      var rows := BriefsOf(l.briefs, a);
      assert Numbered(rows, BriefRevision) && BriefChain(d, rows);
      assert DecisionChain(d, decisions, |rows|);
      BriefsAppend(l.briefs, row, a);
      hide Ordered, RecordInv;
      if row.entry.asg == a {
        BriefAppend(d, rows, row);
        NumberedAppend(rows, row, BriefRevision);
        MoreBriefs(d, decisions, |rows|, |rows| + 1);
      }
      hide BriefChain, DecisionChain, Numbered;
    }
  }

  lemma DecisionAppend(d: Desk, rows: seq<Decision>, row: Decision, briefs: nat)
    requires DecisionChain(d, rows, briefs) && 1 <= row.entry.affected <= briefs && row.sha == d.decisionSha(row.entry)
    requires row.entry.prior == (if rows == [] then None else Some(rows[|rows| - 1].sha))
    requires row.entry.priorId == (if rows == [] then None else Some(rows[|rows| - 1].entry.decisionId))
    ensures DecisionChain(d, rows + [row], briefs)
  {
    forall i | 0 <= i <= |rows|
      ensures DecisionLink(d, rows + [row], i, briefs)
    {
      assert i == |rows| || DecisionLink(d, rows, i, briefs);
    }
  }

  lemma DecisionKeepsRecords(d: Desk, l: Ledger, row: Decision)
    requires Ordered(l) && RecordInv(d, l) && DecisionLegal(d, l, row)
    ensures RecordInv(d, Apply(l, AddDecision(row)))
    ensures forall a: Id :: Numbered(DecisionsOf(l.decisions + [row], a), DecisionRevision)
  {
    hide BriefsOf, DecisionsOf, Owns;
    forall a: Id
      ensures var rows := DecisionsOf(l.decisions + [row], a);
              Numbered(rows, DecisionRevision) && DecisionChain(d, rows, |BriefsOf(l.briefs, a)|)
    {
      var rows := DecisionsOf(l.decisions, a);
      assert Numbered(rows, DecisionRevision) && DecisionChain(d, rows, |BriefsOf(l.briefs, a)|);
      DecisionsAppend(l.decisions, row, a);
      hide Ordered, RecordInv;
      if row.entry.asg == a {
        DecisionAppend(d, rows, row, |BriefsOf(l.briefs, a)|);
        NumberedAppend(rows, row, DecisionRevision);
      }
      hide DecisionChain, Numbered;
    }
  }

  // -------------------------------------------------------- checks are kept

  lemma DefinitionAppend(rows: seq<Definition>, row: Definition)
    requires DefinitionChain(rows) && row.maxRetries <= 1
    requires row.prior == (if rows == [] then None else Some(|rows|))
    requires rows != [] ==> rows[|rows| - 1].scopeId == row.scopeId
    ensures DefinitionChain(rows + [row])
  {
  }

  lemma DefinitionExtends(d: Desk, l: Ledger, row: Definition, a: Id, check: Id)
    requires Ordered(l) && CheckInv(l) && DefinitionLegal(d, l, row)
    ensures DefinitionsOf(l.definitions, a, check) <= DefinitionsOf(l.definitions + [row], a, check)
    ensures Numbered(DefinitionsOf(l.definitions + [row], a, check), DefinitionRevision)
    ensures DefinitionChain(DefinitionsOf(l.definitions + [row], a, check))
  {
    var rows := DefinitionsOf(l.definitions, a, check);
    assert Numbered(rows, DefinitionRevision) && DefinitionChain(rows);
    hide DefinitionsOf, Owns, Ordered, CheckInv, DefinitionChain, Numbered;
    DefinitionsAppend(l.definitions, row, a, check);
    if row.asg == a && row.checkId == check {
      DefinitionAppend(rows, row);
      NumberedAppend(rows, row, DefinitionRevision);
    }
  }

  /** A later definition revision leaves a retry stream as it was judged. */
  lemma AmendedDefinition(runs: seq<CheckRun>, defs: seq<Definition>, more: seq<Definition>)
    requires RetryStream(runs, defs) && defs <= more
    ensures RetryStream(runs, more)
  {
    if runs != [] {
      assert more[runs[0].definitionRevision - 1] == defs[runs[0].definitionRevision - 1];
    }
  }

  lemma DefinitionKeepsChecks(d: Desk, l: Ledger, row: Definition)
    requires Ordered(l) && CheckInv(l) && DefinitionLegal(d, l, row)
    ensures CheckInv(Apply(l, AddDefinition(row)))
    ensures forall a: Id, check: Id :: Numbered(DefinitionsOf(l.definitions + [row], a, check), DefinitionRevision)
  {
    hide DefinitionsOf, RunsOf, Ordered, DefinitionLegal, DefinitionChain, RetryStream, Numbered;
    forall a: Id, check: Id
      ensures Numbered(DefinitionsOf(l.definitions + [row], a, check), DefinitionRevision)
      ensures DefinitionChain(DefinitionsOf(l.definitions + [row], a, check))
    {
      DefinitionExtends(d, l, row, a, check);
    }
    forall a: Id, rollout: Id, check: Id, candidate: Sha
      ensures RetryStream(RunsOf(l.runs, a, rollout, check, candidate), DefinitionsOf(l.definitions + [row], a, check))
    {
      DefinitionExtends(d, l, row, a, check);
      AmendedDefinition(RunsOf(l.runs, a, rollout, check, candidate), DefinitionsOf(l.definitions, a, check),
                        DefinitionsOf(l.definitions + [row], a, check));
    }
  }

  lemma RetryAppend(runs: seq<CheckRun>, defs: seq<Definition>, row: CheckRun)
    requires RetryStream(runs, defs) && defs != []
    requires row.retryOf == (if runs == [] then None else Some(runs[|runs| - 1].runId))
    requires row.definitionRevision == |defs| && row.definitionDigest == defs[|defs| - 1].digest
    requires forall r <- runs :: !r.status.Passed?
    requires runs != [] ==> runs[0].definitionRevision == |defs| && |runs| < 1 + defs[|defs| - 1].maxRetries
    ensures RetryStream(runs + [row], defs)
  {
    forall i | 0 <= i <= |runs|
      ensures RetryLink(runs + [row], i)
    {
      assert i == |runs| || RetryLink(runs, i);
    }
  }

  lemma RunKeepsChecks(d: Desk, l: Ledger, row: CheckRun)
    requires Ordered(l) && CheckInv(l) && RunLegal(d, l, row)
    ensures CheckInv(Apply(l, AddRun(row)))
    ensures forall a: Id, rollout: Id, check: Id, candidate: Sha ::
              Numbered(RunsOf(l.runs + [row], a, rollout, check, candidate), Attempt)
  {
    hide DefinitionsOf, RunsOf, TransitionsOf, RolloutsOf, Owns, DefinitionChain;
    forall a: Id, rollout: Id, check: Id, candidate: Sha
      ensures RetryStream(RunsOf(l.runs + [row], a, rollout, check, candidate), DefinitionsOf(l.definitions, a, check))
      ensures Numbered(RunsOf(l.runs + [row], a, rollout, check, candidate), Attempt)
    {
      var runs, defs := RunsOf(l.runs, a, rollout, check, candidate), DefinitionsOf(l.definitions, a, check);
      assert RetryStream(runs, defs) && Numbered(runs, Attempt);
      hide Ordered, CheckInv;
      RunsAppend(l.runs, row, a, rollout, check, candidate);
      if row.asg == a && row.rolloutId == rollout && row.checkId == check && row.candidate == candidate {
        RetryAppend(runs, defs, row);
        NumberedAppend(runs, row, Attempt);
      }
      hide RetryStream, Numbered;
    }
  }

  // ------------------------------------------------------ rollouts are kept

  lemma RolloutAppend(rows: seq<Rollout>, row: Rollout)
    requires RolloutChain(rows) && row.prior == (if rows == [] then None else Some(|rows|))
    requires rows != [] ==> rows[|rows| - 1].scopeId == row.scopeId
    ensures RolloutChain(rows + [row])
  {
  }

  lemma MachineAppend(d: Desk, rows: seq<Transition>, decls: seq<Rollout>, row: Transition)
    requires Machine(d, rows, decls) && rows != [] && row.command.Some? && row.rolloutRevision == |decls|
    requires row.from == Some(rows[|rows| - 1].to) && d.edge(rows[|rows| - 1].to, row.command.value) == Some(row.to)
    requires row.cohort.Some? <==> row.command.value.StartCanary?
    requires CohortGated(row.command.value) ==>
               PinnedCohort(rows).Some? && row.cohortDigestAtGate == Some(PinnedCohort(rows).value.digest)
    ensures Machine(d, rows + [row], decls)
  {
    var more := rows + [row];
    hide PinnedCohort, LegalMove;
    forall i | 0 <= i < |more|
      ensures LegalMove(d, more, i) && 1 <= more[i].rolloutRevision <= |decls|
    {
      if i < |rows| {
        assert LegalMove(d, rows, i);
        EarlierMove(d, rows, row, i);
      } else {
        LastMove(d, rows, row);
      }
    }
  }

  lemma LastMove(d: Desk, rows: seq<Transition>, row: Transition)
    requires rows != [] && row.command.Some?
    requires row.from == Some(rows[|rows| - 1].to) && d.edge(rows[|rows| - 1].to, row.command.value) == Some(row.to)
    requires row.cohort.Some? <==> row.command.value.StartCanary?
    requires CohortGated(row.command.value) ==>
               PinnedCohort(rows).Some? && row.cohortDigestAtGate == Some(PinnedCohort(rows).value.digest)
    ensures LegalMove(d, rows + [row], |rows|)
  {
    assert (rows + [row])[..|rows|] == rows;
    hide PinnedCohort;
  }

  lemma EarlierMove(d: Desk, rows: seq<Transition>, row: Transition, i: nat)
    requires i < |rows| && LegalMove(d, rows, i)
    ensures LegalMove(d, rows + [row], i)
  {
    assert (rows + [row])[..i] == rows[..i];
    hide PinnedCohort;
  }

  lemma MachineRedeclared(d: Desk, rows: seq<Transition>, decls: seq<Rollout>, row: Rollout)
    requires Machine(d, rows, decls) && decls != []
    ensures Machine(d, rows, decls + [row])
  {
    forall i | 0 <= i < |rows|
      ensures LegalMove(d, rows, i) && 1 <= rows[i].rolloutRevision <= |decls| + 1
    {
      assert LegalMove(d, rows, i);
    }
  }

  /** A declaration extends its own stream, and opens the machine if it is the first. */
  lemma DeclarationExtends(d: Desk, l: Ledger, row: Rollout, opening: Option<Transition>, a: Id, rollout: Id)
    requires Ordered(l) && RolloutInv(d, l) && RolloutLegal(d, l, row, opening)
    ensures var l' := Apply(l, AddRollout(row, opening));
            var decls, moves := RolloutsOf(l'.rollouts, a, rollout), TransitionsOf(l'.transitions, a, rollout);
            && Numbered(decls, RolloutRevision) && RolloutChain(decls)
            && Numbered(moves, TransitionRevision) && Machine(d, moves, decls)
  {
    var decls, moves := RolloutsOf(l.rollouts, a, rollout), TransitionsOf(l.transitions, a, rollout);
    assert Numbered(decls, RolloutRevision) && Numbered(moves, TransitionRevision);
    assert RolloutChain(decls) && Machine(d, moves, decls);
    hide RolloutsOf, TransitionsOf, Owns, Ordered, RolloutInv, RolloutChain, Numbered, ObservedCandidate, Resolved;
    var mine := row.asg == a && row.rolloutId == rollout;
    RolloutsAppend(l.rollouts, row, a, rollout);
    OpeningExtends(l, row, opening, a, rollout);
    hide Apply;
    if mine {
      assert decls == RolloutsOf(l.rollouts, row.asg, row.rolloutId);
      hide Machine;
      OwnDeclaration(d, decls, moves, row, opening);
    }
  }

  lemma OpeningExtends(l: Ledger, row: Rollout, opening: Option<Transition>, a: Id, rollout: Id)
    requires opening.Some? ==> opening.value.asg == row.asg && opening.value.rolloutId == row.rolloutId
    ensures var l' := Apply(l, AddRollout(row, opening));
            var moves := TransitionsOf(l.transitions, a, rollout);
            && l'.rollouts == l.rollouts + [row]
            && TransitionsOf(l'.transitions, a, rollout) ==
               if opening.Some? && row.asg == a && row.rolloutId == rollout then moves + [opening.value] else moves
  {
    if opening.Some? {
      TransitionsAppend(l.transitions, opening.value, a, rollout);
    } else {
      assert l.transitions + [] == l.transitions;
    }
  }

  lemma OwnDeclaration(d: Desk, decls: seq<Rollout>, moves: seq<Transition>, row: Rollout, opening: Option<Transition>)
    requires Numbered(decls, RolloutRevision) && RolloutChain(decls) && Numbered(moves, TransitionRevision) && Machine(d, moves, decls)
    requires row.revision == |decls| + 1 && row.prior == (if decls == [] then None else Some(|decls|))
    requires decls != [] ==> decls[|decls| - 1].scopeId == row.scopeId
    requires opening.Some? <==> decls == []
    requires opening.Some? ==>
               var t := opening.value;
               t.revision == 1 && t.rolloutRevision == 1 && t.command == None && t.from == None && t.to == Declared && t.cohort == None
    ensures Numbered(decls + [row], RolloutRevision) && RolloutChain(decls + [row])
    ensures var moves' := if opening.Some? then moves + [opening.value] else moves;
            Numbered(moves', TransitionRevision) && Machine(d, moves', decls + [row])
  {
    NumberedAppend(decls, row, RolloutRevision);
    RolloutAppend(decls, row);
    if opening.Some? {
      NumberedAppend(moves, opening.value, TransitionRevision);
      Opens(d, opening.value, row);
    } else {
      MachineRedeclared(d, moves, decls, row);
    }
  }

  lemma Opens(d: Desk, t: Transition, row: Rollout)
    requires t.command == None && t.from == None && t.to == Declared && t.cohort == None && t.rolloutRevision == 1
    ensures Machine(d, [] + [t], [] + [row])
  {
    assert LegalMove(d, [t], 0);
  }

  /** A legal transition continues the machine of its own stream. */
  lemma MoveFits(d: Desk, l: Ledger, row: Transition)
    requires TransitionLegal(d, l, row)
    ensures var decls, rows := RolloutsOf(l.rollouts, row.asg, row.rolloutId), TransitionsOf(l.transitions, row.asg, row.rolloutId);
            && rows != [] && row.command.Some? && row.rolloutRevision == |decls| && row.revision == |rows| + 1
            && row.from == Some(rows[|rows| - 1].to) && d.edge(rows[|rows| - 1].to, row.command.value) == Some(row.to)
            && (row.cohort.Some? <==> row.command.value.StartCanary?)
            && (CohortGated(row.command.value) ==>
                  PinnedCohort(rows).Some? && row.cohortDigestAtGate == Some(PinnedCohort(rows).value.digest))
  {
    hide RolloutsOf, TransitionsOf, PinnedCohort, EffectiveOwner, RosterPin, CohortNow, Discharges, ObservedCandidate;
  }

  lemma MachineOf(d: Desk, l: Ledger, a: Id, rollout: Id)
    requires Ordered(l) && RolloutInv(d, l)
    ensures var moves := TransitionsOf(l.transitions, a, rollout);
            Numbered(moves, TransitionRevision) && Machine(d, moves, RolloutsOf(l.rollouts, a, rollout))
  {
  }

  lemma MoveExtends(d: Desk, l: Ledger, row: Transition, a: Id, rollout: Id)
    requires Ordered(l) && RolloutInv(d, l) && TransitionLegal(d, l, row)
    ensures var moves := TransitionsOf(l.transitions + [row], a, rollout);
            Numbered(moves, TransitionRevision) && Machine(d, moves, RolloutsOf(l.rollouts, a, rollout))
  {
    hide RolloutsOf, TransitionsOf, Ordered, RolloutInv, Numbered, Machine, TransitionLegal, PinnedCohort;
    var decls, moves := RolloutsOf(l.rollouts, a, rollout), TransitionsOf(l.transitions, a, rollout);
    MachineOf(d, l, a, rollout);
    MoveFits(d, l, row);
    TransitionsAppend(l.transitions, row, a, rollout);
    if row.asg == a && row.rolloutId == rollout {
      NumberedAppend(moves, row, TransitionRevision);
      MachineAppend(d, moves, decls, row);
    }
  }

  // ------------------------------------------------------ evidence is kept

  /** What the gate resolved is evidence: a passed run for each required check, in order. */
  lemma {:induction false} DischargesAreEvidence(runs: seq<CheckRun>, decl: Rollout, required: seq<Required>)
    requires Discharges(runs, decl, required).Some?
    ensures Evidence(runs, decl, required, Discharges(runs, decl, required).value)
  {
    if required != [] {
      var last := required[|required| - 1];
      var sorted := SortBy(Qualifying(runs, decl, last), Attempt);
      DischargesAreEvidence(runs, decl, required[..|required| - 1]);
      LastIsMember(Qualifying(runs, decl, last), Attempt);
      FilterMember(runs, (r: CheckRun) => Qualifies(r, decl, last));
      assert Discharged(runs, decl, last, Discharge(last.checkId, sorted[|sorted| - 1].runId));
    }
  }

  lemma MoreRuns(runs: seq<CheckRun>, more: seq<CheckRun>, decl: Rollout, required: seq<Required>, checks: seq<Discharge>)
    requires Evidence(runs, decl, required, checks) && runs <= more
    ensures Evidence(more, decl, required, checks)
  {
    forall i | 0 <= i < |required|
      ensures Discharged(more, decl, required[i], checks[i])
    {
      assert Discharged(runs, decl, required[i], checks[i]);
      var r :| r in runs && r.runId == checks[i].runId && Qualifies(r, decl, required[i]);
      assert r in more;
    }
  }

  /** Evidence stays evidence as the tables it rests on grow. */
  lemma GateStays(l: Ledger, l': Ledger, t: Transition)
    requires GateEvidence(l, t) && l.runs <= l'.runs
    requires RolloutsOf(l.rollouts, t.asg, t.rolloutId) <= RolloutsOf(l'.rollouts, t.asg, t.rolloutId)
    ensures GateEvidence(l', t)
  {
    if t.command.Some? && CheckGated(t.command.value) {
      var decl := RolloutsOf(l.rollouts, t.asg, t.rolloutId)[t.rolloutRevision - 1];
      MoreRuns(l.runs, l'.runs, decl, decl.required, t.checks);
    }
  }

  lemma CandidateStays(l: Ledger, l': Ledger, a: Id, snapshot: Sha, head: Option<Id>)
    requires ObservedCandidate(l, a, snapshot, head) && l.candidates <= l'.candidates
    ensures ObservedCandidate(l', a, snapshot, head)
  {
    var c :| c in l.candidates && c.snapshot == snapshot && c.asg == a && c.head == head;
    assert c in l'.candidates;
  }

  /** Every write appends to the tables that evidence rests on. */
  lemma TablesGrow(l: Ledger, w: Write)
    ensures var l' := Apply(l, w);
            && l.offers <= l'.offers && l.accepts <= l'.accepts && l.briefs <= l'.briefs && l.decisions <= l'.decisions
            && l.definitions <= l'.definitions && l.runs <= l'.runs && l.rollouts <= l'.rollouts
            && l.transitions <= l'.transitions && l.candidates <= l'.candidates && |l.handbacks| <= |l'.handbacks|
  {
  }

  lemma RolloutsGrow(rows: seq<Rollout>, more: seq<Rollout>, a: Id, rollout: Id)
    requires rows <= more
    ensures RolloutsOf(rows, a, rollout) <= RolloutsOf(more, a, rollout)
  {
    FilterPrefix(rows, more, (r: Rollout) => r.asg == a && r.rolloutId == rollout);
  }

  lemma WriteKeepsEvidence(d: Desk, l: Ledger, w: Write)
    requires EvidenceInv(l) && Legal(d, l, w)
    ensures EvidenceInv(Apply(l, w))
  {
    var l' := Apply(l, w);
    TablesGrow(l, w);
    hide RolloutsOf, TransitionsOf, GateEvidence, ObservedCandidate, Discharges, Owns, AcceptLegal, OfferLegal, BriefLegal;
    hide DecisionLegal, DefinitionLegal, RunLegal, HandbackLegal, ObserveLegal;
    forall t | t in l'.transitions
      ensures GateEvidence(l', t)
    {
      RolloutsGrow(l.rollouts, l'.rollouts, t.asg, t.rolloutId);
      if t in l.transitions {
        GateStays(l, l', t);
      } else if w.AddTransition? {
        NewGateEvidence(d, l, t);
        GateStays(l, l', t);
      } else {
        OpeningNeedsNothing(l', t);
      }
    }
    forall r | r in l'.rollouts
      ensures ObservedCandidate(l', r.asg, r.candidate, r.head) && DistinctChecks(r.required)
    {
      CandidateStays(l, l', r.asg, r.candidate, r.head);
    }
  }

  lemma OpeningNeedsNothing(l: Ledger, t: Transition)
    requires t.command == None
    ensures GateEvidence(l, t)
  {
  }

  lemma NewGateEvidence(d: Desk, l: Ledger, t: Transition)
    requires TransitionLegal(d, l, t)
    ensures GateEvidence(l, t)
  {
    hide RolloutsOf, TransitionsOf, Discharges, Evidence, EffectiveOwner;
    if CheckGated(t.command.value) {
      var decls := RolloutsOf(l.rollouts, t.asg, t.rolloutId);
      DischargesAreEvidence(l.runs, decls[|decls| - 1], decls[|decls| - 1].required);
    }
  }

  // ----------------------------------------------------- handbacks are kept

  lemma SubmitKeepsHandbacks(d: Desk, l: Ledger, row: Handback)
    requires HandbackInv(d, l) && HandbackLegal(d, l, row)
    requires forall h <- l.handbacks :: HandbackKey(h) != HandbackKey(row)
    ensures HandbackInv(d, Apply(l, AddHandback(row)))
  {
    var l' := Apply(l, AddHandback(row));
    forall c | c in l'.candidates
      ensures HasHandback(l'.handbacks, c)
    {
      assert HasHandback(l.handbacks, c);
      var h :| h in l.handbacks && Produced(h, c);
      assert h in l'.handbacks;
    }
  }

  lemma OnePart(d: Desk, kind: IdKind, x: Id, y: Id)
    requires Injective(d) && d.derive(kind, [x]) == d.derive(kind, [y])
    ensures x == y
  {
    assert [x] == [y];
    assert [x][0] == [y][0];
  }

  lemma ThreeParts(d: Desk, kind: IdKind, xs: seq<Id>, ys: seq<Id>)
    requires Injective(d) && |xs| == |ys| == 3 && d.derive(kind, xs) == d.derive(kind, ys)
    ensures xs[0] == ys[0] && xs[1] == ys[1] && xs[2] == ys[2]
  {
    assert xs == ys;
  }

  /** The row that an observation targets is the only one with its id. */
  lemma OneHandbackPerId(d: Desk, l: Ledger, g: Handback, h: Handback)
    requires Injective(d) && HandbackInv(d, l) && g in l.handbacks && h in l.handbacks && g.handbackId == h.handbackId
    ensures g == h
  {
    hide Injective;
    assert DerivedIds(d, g) && DerivedIds(d, h);
    ThreeParts(d, HandbackId, [g.agent, g.asg, g.requestId], [h.agent, h.asg, h.requestId]);
  }

  lemma ObservedIn(hs: seq<Handback>, w: Write)
    requires w.Observe?
    ensures forall h <- hs :: Observed(h, w) in ObservedAll(hs, w)
    ensures forall g <- ObservedAll(hs, w) :: exists h <- hs :: g == Observed(h, w)
  {
    forall h | h in hs
      ensures Observed(h, w) in ObservedAll(hs, w)
    {
      var i :| 0 <= i < |hs| && hs[i] == h;
      assert ObservedAll(hs, w)[i] == Observed(h, w);
    }
  }

  lemma ObserveKeepsHandbacks(d: Desk, l: Ledger, w: Write)
    requires Injective(d) && HandbackInv(d, l) && w.Observe? && ObserveLegal(d, l, w)
    ensures HandbackInv(d, Apply(l, w))
  {
    var l' := Apply(l, w);
    var target :| target in l.handbacks && target.handbackId == w.handbackId && target.observed.Pending? && !w.observed.Pending?
      && w.observed.repository == target.observed.repository && (w.captured.Some? <==> w.observed.Captured?)
      && (w.captured.Some? ==> Produced(Observed(target, w), w.captured.value)
                               && w.observed.candidateId == d.derive(CandidateId, [target.handbackId]));
    hide Injective, ObserveLegal;
    forall h | h in l.handbacks && h.handbackId == w.handbackId
      ensures h == target
    {
      OneHandbackPerId(d, l, h, target);
    }
    if w.captured.Some? {
      FreshCandidate(d, l, target);
    }
    hide Produced, DerivedIds, HasHandback, HasCandidate;
    forall c | c in l'.candidates
      ensures HasHandback(l'.handbacks, c)
    {
      ObservedHandback(l, w, target, c);
    }
    forall g | g in l'.handbacks
      ensures DerivedIds(d, g) && (g.observed.Captured? ==> HasCandidate(l'.candidates, g))
    {
      ObservedCandidateKept(d, l, w, target, g);
    }
    KeysObserved(l.handbacks, w);
  }

  lemma KeysObserved(hs: seq<Handback>, w: Write)
    requires w.Observe? && DistinctHandbacks(hs)
    ensures DistinctHandbacks(ObservedAll(hs, w))
  {
    var gs := ObservedAll(hs, w);
    forall i, j | 0 <= i < j < |gs|
      ensures HandbackKey(gs[i]) != HandbackKey(gs[j])
    {
      assert HandbackKey(hs[i]) != HandbackKey(hs[j]);
    }
  }

  lemma ObservedHandback(l: Ledger, w: Write, target: Handback, c: Candidate)
    requires w.Observe? && target in l.handbacks && target.observed.Pending?
    requires forall h <- l.handbacks :: h.handbackId == w.handbackId <==> h == target
    requires w.captured.Some? ==> Produced(Observed(target, w), w.captured.value)
    requires forall k <- l.candidates :: HasHandback(l.handbacks, k)
    requires c in Apply(l, w).candidates
    ensures HasHandback(Apply(l, w).handbacks, c)
  {
    ObservedIn(l.handbacks, w);
    if c in l.candidates {
      var h :| h in l.handbacks && Produced(h, c);
      assert Observed(h, w) == h;
    } else {
      assert Observed(target, w) in Apply(l, w).handbacks;
    }
  }

  lemma ObservedCandidateKept(d: Desk, l: Ledger, w: Write, target: Handback, g: Handback)
    requires w.Observe? && target in l.handbacks
    requires forall h <- l.handbacks :: h.handbackId == w.handbackId <==> h == target
    requires w.captured.Some? <==> w.observed.Captured?
    requires w.captured.Some? ==> Produced(Observed(target, w), w.captured.value)
                                  && w.observed.candidateId == d.derive(CandidateId, [target.handbackId])
    requires forall h <- l.handbacks :: DerivedIds(d, h) && (h.observed.Captured? ==> HasCandidate(l.candidates, h))
    requires g in Apply(l, w).handbacks
    ensures DerivedIds(d, g) && (g.observed.Captured? ==> HasCandidate(Apply(l, w).candidates, g))
  {
    ObservedIn(l.handbacks, w);
    var h :| h in l.handbacks && g == Observed(h, w);
    assert DerivedIds(d, h);
    if g.observed.Captured? {
      if h == target {
        assert w.captured.value in Apply(l, w).candidates;
      } else {
        var c :| c in l.candidates && Produced(h, c);
        assert c in Apply(l, w).candidates;
      }
    }
  }

  /** A pending handback has no candidate yet. */
  lemma FreshCandidate(d: Desk, l: Ledger, target: Handback)
    requires Injective(d) && HandbackInv(d, l) && target in l.handbacks && target.observed.Pending?
    ensures forall c <- l.candidates :: c.candidateId != d.derive(CandidateId, [target.handbackId])
  {
    forall c | c in l.candidates
      ensures c.candidateId != d.derive(CandidateId, [target.handbackId])
    {
      assert HasHandback(l.handbacks, c);
      var h :| h in l.handbacks && Produced(h, c);
      assert DerivedIds(d, h);
      hide Injective, HandbackInv;
      if c.candidateId == d.derive(CandidateId, [target.handbackId]) {
        OnePart(d, CandidateId, h.handbackId, target.handbackId);
        OneHandbackPerId(d, l, h, target);
      }
    }
  }

  // ------------------------------------------------- every write, every step

  ghost predicate HandbacksNumbered(hs: seq<Handback>) {
    forall a: Id, agent: Id :: Numbered(HandbacksOf(hs, a, agent), HandbackRevision)
  }

  lemma SubmitKeepsNumbers(d: Desk, l: Ledger, row: Handback)
    requires HandbacksNumbered(l.handbacks) && HandbackLegal(d, l, row)
    ensures HandbacksNumbered(l.handbacks + [row])
  {
    hide HandbacksOf;
    forall a: Id, agent: Id
      ensures Numbered(HandbacksOf(l.handbacks + [row], a, agent), HandbackRevision)
    {
      HandbacksAppend(l.handbacks, row, a, agent);
      assert Numbered(HandbacksOf(l.handbacks, a, agent), HandbackRevision);
      if row.asg == a && row.agent == agent {
        NumberedAppend(HandbacksOf(l.handbacks, a, agent), row, HandbackRevision);
      }
    }
  }

  lemma ObserveKeepsNumbers(hs: seq<Handback>, w: Write)
    requires w.Observe? && HandbacksNumbered(hs)
    ensures HandbacksNumbered(ObservedAll(hs, w))
  {
    hide HandbacksOf, ObservedAll;
    forall a: Id, agent: Id
      ensures Numbered(HandbacksOf(ObservedAll(hs, w), a, agent), HandbackRevision)
    {
      HandbacksObserved(hs, w, a, agent);
      assert Numbered(HandbacksOf(hs, a, agent), HandbackRevision);
    }
  }

  lemma DeclarationKeepsRollouts(d: Desk, l: Ledger, row: Rollout, opening: Option<Transition>)
    requires Ordered(l) && RolloutInv(d, l) && RolloutLegal(d, l, row, opening)
    ensures var l' := Apply(l, AddRollout(row, opening));
            && RolloutInv(d, l')
            && (forall a: Id, rollout: Id :: Numbered(RolloutsOf(l'.rollouts, a, rollout), RolloutRevision))
            && (forall a: Id, rollout: Id :: Numbered(TransitionsOf(l'.transitions, a, rollout), TransitionRevision))
  {
    hide Ordered, RolloutLegal, RolloutsOf, TransitionsOf, Numbered, RolloutChain, Machine;
    var l' := Apply(l, AddRollout(row, opening));
    forall a: Id, rollout: Id
      ensures Numbered(RolloutsOf(l'.rollouts, a, rollout), RolloutRevision)
      ensures Numbered(TransitionsOf(l'.transitions, a, rollout), TransitionRevision)
      ensures RolloutChain(RolloutsOf(l'.rollouts, a, rollout))
      ensures Machine(d, TransitionsOf(l'.transitions, a, rollout), RolloutsOf(l'.rollouts, a, rollout))
    {
      DeclarationExtends(d, l, row, opening, a, rollout);
    }
  }

  lemma MoveKeepsRollouts(d: Desk, l: Ledger, row: Transition)
    requires Ordered(l) && RolloutInv(d, l) && TransitionLegal(d, l, row)
    ensures var l' := Apply(l, AddTransition(row));
            && RolloutInv(d, l')
            && (forall a: Id, rollout: Id :: Numbered(TransitionsOf(l'.transitions, a, rollout), TransitionRevision))
  {
    hide Ordered, TransitionLegal, RolloutsOf, TransitionsOf, Numbered, RolloutChain, Machine;
    var l' := Apply(l, AddTransition(row));
    forall a: Id, rollout: Id
      ensures Numbered(TransitionsOf(l'.transitions, a, rollout), TransitionRevision)
      ensures Machine(d, TransitionsOf(l'.transitions, a, rollout), RolloutsOf(l'.rollouts, a, rollout))
    {
      MoveExtends(d, l, row, a, rollout);
    }
  }

  lemma WriteKeepsOrder(d: Desk, l: Ledger, w: Write)
    requires TableInv(d, l) && Legal(d, l, w)
    ensures Ordered(Apply(l, w))
  {
    hide AcceptsOf, BriefsOf, DecisionsOf, DefinitionsOf, RunsOf, RolloutsOf, TransitionsOf, HandbacksOf, Numbered;
    hide OfferLegal, AcceptLegal, BriefLegal, DecisionLegal, DefinitionLegal, RunLegal, RolloutLegal, TransitionLegal, HandbackLegal;
    hide ObserveLegal, CustodyInv, RecordInv, CheckInv, RolloutInv, EvidenceInv, HandbackInv;
    assert HandbacksNumbered(l.handbacks);
    match w
    case AddAccept(row) => AcceptKeepsCustody(d, l, row);
    case AddBrief(row) => BriefKeepsRecords(d, l, row);
    case AddDecision(row) => DecisionKeepsRecords(d, l, row);
    case AddDefinition(row) => DefinitionKeepsChecks(d, l, row);
    case AddRun(row) => RunKeepsChecks(d, l, row);
    case AddRollout(row, opening) => DeclarationKeepsRollouts(d, l, row, opening);
    case AddTransition(row) => MoveKeepsRollouts(d, l, row);
    case AddHandback(row) => SubmitKeepsNumbers(d, l, row);
    case Observe(_, _, _, _) => ObserveKeepsNumbers(l.handbacks, w);
    case _ =>
  }

  /** Each kind of write touches its own tables only. */
  lemma Untouched(l: Ledger, w: Write)
    ensures var l' := Apply(l, w);
            && (!w.AddBrief? ==> l'.briefs == l.briefs) && (!w.AddDecision? ==> l'.decisions == l.decisions)
            && (!w.AddDefinition? ==> l'.definitions == l.definitions) && (!w.AddRun? ==> l'.runs == l.runs)
            && (!w.AddRollout? ==> l'.rollouts == l.rollouts)
            && (!w.AddRollout? && !w.AddTransition? ==> l'.transitions == l.transitions)
            && (!w.AddHandback? && !w.Observe? ==> l'.handbacks == l.handbacks) && (!w.Observe? ==> l'.candidates == l.candidates)
            && (!w.AddOffer? ==> l'.offers == l.offers) && (!w.AddAccept? ==> l'.accepts == l.accepts)
  {
  }

  lemma WriteKeepsCustody(d: Desk, l: Ledger, w: Write)
    requires TableInv(d, l) && Legal(d, l, w)
    ensures CustodyInv(Apply(l, w))
  {
    hide CustodyInv, Ordered, OfferLegal, AcceptLegal;
    match w
    case AddOffer(row) => OfferKeepsCustody(d, l, row);
    case AddAccept(row) => AcceptKeepsCustody(d, l, row);
    case _ => OthersKeepCustody(d, l, w);
  }

  lemma WriteKeepsRecords(d: Desk, l: Ledger, w: Write)
    requires TableInv(d, l) && Legal(d, l, w)
    ensures RecordInv(d, Apply(l, w))
  {
    hide Ordered, BriefLegal, DecisionLegal, BriefsOf, DecisionsOf, BriefChain, DecisionChain, Apply, OfferLegal, AcceptLegal;
    hide CustodyInv, EvidenceInv;
    Untouched(l, w);
    match w
    case AddBrief(row) => BriefKeepsRecords(d, l, row);
    case AddDecision(row) => DecisionKeepsRecords(d, l, row);
    case _ =>
  }

  lemma WriteKeepsChecks(d: Desk, l: Ledger, w: Write)
    requires TableInv(d, l) && Legal(d, l, w)
    ensures CheckInv(Apply(l, w))
  {
    hide Ordered, DefinitionLegal, RunLegal, DefinitionsOf, RunsOf, DefinitionChain, RetryStream, Apply, OfferLegal, AcceptLegal;
    hide CustodyInv, EvidenceInv;
    Untouched(l, w);
    match w
    case AddDefinition(row) => DefinitionKeepsChecks(d, l, row);
    case AddRun(row) => RunKeepsChecks(d, l, row);
    case _ =>
  }

  lemma WriteKeepsRollouts(d: Desk, l: Ledger, w: Write)
    requires TableInv(d, l) && Legal(d, l, w)
    ensures RolloutInv(d, Apply(l, w))
  {
    hide Ordered, RolloutLegal, TransitionLegal, RolloutsOf, TransitionsOf, RolloutChain, Machine, Apply, OfferLegal, AcceptLegal;
    hide CustodyInv, EvidenceInv;
    Untouched(l, w);
    match w
    case AddRollout(row, opening) => DeclarationKeepsRollouts(d, l, row, opening);
    case AddTransition(row) => MoveKeepsRollouts(d, l, row);
    case _ =>
  }

  lemma WriteKeepsHandbacks(d: Desk, l: Ledger, w: Write)
    requires Injective(d) && Inv(d, l) && Legal(d, l, w)
    requires RowKey(w).Some? ==> RowKey(w).value !in l.requests
    ensures HandbackInv(d, Apply(l, w))
  {
    hide Injective, HandbackLegal, ObserveLegal, Ordered, Apply, OfferLegal, AcceptLegal;
    hide CustodyInv, EvidenceInv;
    Untouched(l, w);
    match w
    case AddHandback(row) => SubmitKeepsHandbacks(d, l, row);
    case Observe(_, _, _, _) => ObserveKeepsHandbacks(d, l, w);
    case _ =>
  }

  lemma WriteKeepsTables(d: Desk, l: Ledger, w: Write)
    requires Injective(d) && Inv(d, l) && Legal(d, l, w)
    requires RowKey(w).Some? ==> RowKey(w).value !in l.requests
    ensures TableInv(d, Apply(l, w))
  {
    hide Legal, Ordered, CustodyInv, RecordInv, CheckInv, RolloutInv, EvidenceInv, HandbackInv, RequestInv, Injective, Apply;
    WriteKeepsOrder(d, l, w);
    WriteKeepsCustody(d, l, w);
    WriteKeepsRecords(d, l, w);
    WriteKeepsChecks(d, l, w);
    WriteKeepsRollouts(d, l, w);
    WriteKeepsEvidence(d, l, w);
    WriteKeepsHandbacks(d, l, w);
  }

  /** Everything but the memberships, scopes, revision and request records. */
  ghost predicate SameTables(l: Ledger, l': Ledger) {
    l' == l.(members := l'.members, scopes := l'.scopes, revision := l'.revision, requests := l'.requests)
  }

  lemma SameTablesKeep(d: Desk, l: Ledger, l': Ledger)
    requires TableInv(d, l) && SameTables(l, l')
    ensures TableInv(d, l')
  {
    hide AcceptsOf, BriefsOf, DecisionsOf, DefinitionsOf, RunsOf, RolloutsOf, TransitionsOf, HandbacksOf, Numbered;
    hide BriefChain, DecisionChain, RetryStream, Machine, RolloutChain, DefinitionChain, CustodyChain, Evidence;
    forall o | o in l'.offers
      ensures OfferPinned(l', o)
    {
      assert OfferPinned(l, o);
    }
    forall t | t in l'.transitions
      ensures GateEvidence(l', t)
    {
      assert GateEvidence(l, t);
    }
    forall r | r in l'.rollouts
      ensures ObservedCandidate(l', r.asg, r.candidate, r.head)
    {
      assert ObservedCandidate(l, r.asg, r.candidate, r.head);
    }
  }

  lemma WriteKeepsRequests(d: Desk, l: Ledger, w: Write, l': Ledger)
    requires RequestInv(d, l) && Legal(d, l, w) && SameTables(Apply(l, w), l')
    requires RowKey(w).Some? ==> RowKey(w).value !in l.requests && RowKey(w).value in l'.requests
    requires forall k <- l.requests :: k in l'.requests
    ensures RequestInv(d, l')
  {
    hide AcceptLegal, BriefLegal, DecisionLegal, DefinitionLegal, RunLegal, RolloutLegal, TransitionLegal, HandbackLegal, ObserveLegal, Owns;
    if w.Observe? {
      ObservedIn(l.handbacks, w);
    }
  }

  /** Every step of every run keeps the invariant. */
  lemma NextKeepsInv(d: Desk, l: Ledger, a: Action)
    requires Injective(d) && Inv(d, l) && Enabled(l, a)
    ensures Inv(d, Next(d, l, a))
  {
    hide TableInv, Injective, Decide, Legal, RequestInv;
    var l' := Next(d, l, a);
    if a.Submit? && Answer(d, l, a.command).Fresh? && Decide(d, l, a.command).Commit? {
      var w := Decide(d, l, a.command).write;
      assert Ordered(l) by { TablesAreOrdered(d, l); }
      DecisionsAreLegal(d, l, a.command);
      RowsCarryTheirRequest(d, l, a.command);
      WriteKeepsTables(d, l, w);
      WriteKeepsRequests(d, l, w, l');
      SameTablesKeep(d, Apply(l, w), l');
    } else {
      SameTablesKeep(d, l, l');
      WriteKeepsRequests(d, l, Nothing, l') by { NothingIsLegal(d, l); }
    }
  }

  lemma TablesAreOrdered(d: Desk, l: Ledger)
    requires TableInv(d, l)
    ensures Ordered(l)
  {
  }

  lemma NothingIsLegal(d: Desk, l: Ledger)
    ensures Legal(d, l, Nothing)
  {
  }

  lemma {:induction false} ReachableInv(d: Desk, acts: seq<Action>)
    requires Injective(d) && Run(d, EMPTY, acts).Some?
    ensures Inv(d, Run(d, EMPTY, acts).value)
    decreases |acts|
  {
    if acts == [] {
    } else {
      ReachableInv(d, acts[..|acts| - 1]);
      NextKeepsInv(d, Run(d, EMPTY, acts[..|acts| - 1]).value, acts[|acts| - 1]);
    }
  }
}
