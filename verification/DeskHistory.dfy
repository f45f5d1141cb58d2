/** History: what later ledgers keep of earlier ones, and where rows come from. */
module DeskHistory {
  import opened Options
  import opened Streams
  import opened DeskLedger
  import opened DeskRules
  import opened DeskStore
  import opened DeskInvariants

  // -------------------------------------------------------------- growth

  /** An assignment keeps its registered owner and its seats, and a closed one keeps everything. */
  ghost predicate AssignmentKept(l: Ledger, l': Ledger, a: Id)
    requires a in l.assignments
  {
    && a in l'.assignments && l'.assignments[a].owner == l.assignments[a].owner
    && l.assignments[a].seats <= l'.assignments[a].seats
    && (!l.assignments[a].open ==> l'.assignments[a] == l.assignments[a])
  }

  /** The claim of a handback is fixed, and so is its observation once it is made. */
  predicate ClaimKept(h: Handback, h': Handback) {
    && h' == h.(observed := h'.observed, gaps := h'.gaps)
    && (!h.observed.Pending? ==> h' == h)
    && (h.observed.Pending? ==> h'.observed.repository == h.observed.repository)
  }

  ghost predicate Grows(l: Ledger, l': Ledger) {
    && l.revision <= l'.revision
    && l.offers <= l'.offers && l.accepts <= l'.accepts && l.briefs <= l'.briefs && l.decisions <= l'.decisions
    && l.definitions <= l'.definitions && l.runs <= l'.runs && l.rollouts <= l'.rollouts
    && l.transitions <= l'.transitions && l.candidates <= l'.candidates
    && (forall a <- l.assignments :: AssignmentKept(l, l', a))
    && |l.handbacks| <= |l'.handbacks|
    && (forall i :: 0 <= i < |l.handbacks| ==> ClaimKept(l.handbacks[i], l'.handbacks[i]))
    && (forall k <- l.requests :: k in l'.requests && l'.requests[k] == l.requests[k])
  }

  lemma GrowsTransitively(a: Ledger, b: Ledger, c: Ledger)
    requires Grows(a, b) && Grows(b, c)
    ensures Grows(a, c)
  {
    forall x | x in a.assignments
      ensures AssignmentKept(a, c, x)
    {
      assert AssignmentKept(a, b, x) && AssignmentKept(b, c, x);
    }
    forall i | 0 <= i < |a.handbacks|
      ensures ClaimKept(a.handbacks[i], c.handbacks[i])
    {
      assert ClaimKept(a.handbacks[i], b.handbacks[i]) && ClaimKept(b.handbacks[i], c.handbacks[i]);
    }
  }

  lemma AssignmentsKept(d: Desk, l: Ledger, w: Write)
    requires Legal(d, l, w)
    ensures forall a <- l.assignments :: AssignmentKept(l, Apply(l, w), a)
  {
    hide OfferLegal, AcceptLegal, BriefLegal, DecisionLegal, DefinitionLegal, RunLegal, RolloutLegal, TransitionLegal, HandbackLegal;
    hide ObserveLegal, EffectiveOwner;
  }

  lemma ClaimsKept(d: Desk, l: Ledger, w: Write)
    requires Injective(d) && HandbackInv(d, l) && Legal(d, l, w)
    ensures var hs := Apply(l, w).handbacks;
            |l.handbacks| <= |hs| && forall i :: 0 <= i < |l.handbacks| ==> ClaimKept(l.handbacks[i], hs[i])
  {
    if w.Observe? {
      var target :| target in l.handbacks && target.handbackId == w.handbackId && target.observed.Pending?
        && w.observed.repository == target.observed.repository;
      hide Injective, HandbackInv, Legal;
      forall i | 0 <= i < |l.handbacks|
        ensures ClaimKept(l.handbacks[i], Observed(l.handbacks[i], w))
      {
        if l.handbacks[i].handbackId == w.handbackId { OneHandbackPerId(d, l, l.handbacks[i], target); }
      }
    } else {
      Untouched(l, w);
      hide Legal, HandbackInv, Injective;
    }
  }

  lemma NextGrows(d: Desk, l: Ledger, a: Action)
    requires Injective(d) && Inv(d, l) && Enabled(l, a)
    ensures Grows(l, Next(d, l, a))
  {
    hide Injective, Decide, Legal, TableInv, RequestInv, Apply;
    if a.Submit? && Answer(d, l, a.command).Fresh? && Decide(d, l, a.command).Commit? {
      var w := Decide(d, l, a.command).write;
      assert Ordered(l) && HandbackInv(d, l) by { TablesMean(d, l); }
      hide Ordered, HandbackInv;
      DecisionsAreLegal(d, l, a.command);
      TablesGrow(l, w);
      AssignmentsKept(d, l, w);
      ClaimsKept(d, l, w);
    }
  }

  lemma TablesMean(d: Desk, l: Ledger)
    requires TableInv(d, l)
    ensures Ordered(l) && CustodyInv(l) && RecordInv(d, l) && CheckInv(l) && RolloutInv(d, l) && EvidenceInv(l) && HandbackInv(d, l)
  {
  }

  /** Nothing that was committed is rewritten or removed by any later run. */
  lemma {:induction false} HistoryIsKept(d: Desk, l: Ledger, acts: seq<Action>)
    requires Injective(d) && Inv(d, l) && Run(d, l, acts).Some?
    ensures Inv(d, Run(d, l, acts).value) && Grows(l, Run(d, l, acts).value)
    decreases |acts|
  {
    hide Injective, Inv, Next;
    if acts != [] {
      var before := acts[..|acts| - 1];
      HistoryIsKept(d, l, before);
      var w := Run(d, l, before).value;
      NextGrows(d, w, acts[|acts| - 1]);
      NextKeepsInv(d, w, acts[|acts| - 1]);
      GrowsTransitively(l, w, Next(d, w, acts[|acts| - 1]));
    } else {
      Reflexive(l);
    }
  }

  lemma Reflexive(l: Ledger)
    ensures Grows(l, l)
  {
    forall a | a in l.assignments
      ensures AssignmentKept(l, l, a)
    {
    }
  }

  // --------------------------------------------------------------- origins

  /** Step `i` of the run committed the write `w`. */
  ghost predicate CommittedAt(d: Desk, acts: seq<Action>, i: nat, w: Write) {
    && i < |acts| && acts[i].Submit? && Run(d, EMPTY, acts[..i]).Some?
    && Answer(d, Run(d, EMPTY, acts[..i]).value, acts[i].command) == Fresh(Commit(w))
  }

  /** The row that a write adds is in its table. */
  predicate Holds(l: Ledger, w: Write) {
    match w
    case AddOffer(row) => row in l.offers
    case AddAccept(row) => row in l.accepts
    case AddBrief(row) => row in l.briefs
    case AddDecision(row) => row in l.decisions
    case AddDefinition(row) => row in l.definitions
    case AddRun(row) => row in l.runs
    case AddRollout(row, _) => row in l.rollouts
    case AddTransition(row) => row in l.transitions && row.command.Some?
    case _ => false
  }

  /** A declaration is found again by its row, whatever opening came with it. */
  predicate SameRow(w: Write, w': Write) {
    w == w' || (w.AddRollout? && w'.AddRollout? && w.rollout == w'.rollout)
  }

  /** Only its own write puts a row in a table. */
  lemma ApplyAdds(l: Ledger, v: Write, w: Write)
    requires Holds(Apply(l, v), w) && !Holds(l, w)
    requires v.AddRollout? && v.opening.Some? ==> v.opening.value.command == None
    ensures SameRow(w, v)
  {
  }

  lemma DeclarationsOpen(d: Desk, l: Ledger, w: Write)
    requires Legal(d, l, w) && w.AddRollout? && w.opening.Some?
    ensures w.opening.value.command == None
  {
  }

  /** Every row of every table was committed by such a step. */
  lemma {:induction false} RowsAreCommitted(d: Desk, acts: seq<Action>, w: Write) returns (i: nat, v: Write)
    requires Injective(d) && Run(d, EMPTY, acts).Some? && Holds(Run(d, EMPTY, acts).value, w)
    ensures CommittedAt(d, acts, i, v) && SameRow(w, v)
    decreases |acts|
  {
    hide Injective, Inv, Next, Holds, Answer;
    if acts == [] {
      NothingYet(w);
    } else {
      var before, last := acts[..|acts| - 1], acts[|acts| - 1];
      var l := Run(d, EMPTY, before).value;
      if Holds(l, w) {
        i, v := RowsAreCommitted(d, before, w);
        assert before[..i] == acts[..i];
      } else {
        ReachableInv(d, before);
        TablesMean(d, l) by { InvMeans(d, l); }
        v := AddedBy(d, l, last, w);
        i := |acts| - 1;
      }
    }
  }

  lemma NothingYet(w: Write)
    ensures !Holds(EMPTY, w)
  {
  }

  lemma InvMeans(d: Desk, l: Ledger)
    requires Inv(d, l)
    ensures TableInv(d, l) && RequestInv(d, l)
  {
  }

  lemma AddedBy(d: Desk, l: Ledger, a: Action, w: Write) returns (v: Write)
    requires Ordered(l) && Enabled(l, a) && Holds(Next(d, l, a), w) && !Holds(l, w)
    ensures a.Submit? && Answer(d, l, a.command) == Fresh(Commit(v)) && SameRow(w, v)
  {
    hide Decide, Legal, Ordered, Apply;
    v := Decide(d, l, a.command).write;
    DecisionsAreLegal(d, l, a.command);
    if v.AddRollout? && v.opening.Some? { DeclarationsOpen(d, l, v); }
    ApplyAdds(l, v, w);
  }
}
