/** Briefs and decisions: the tip digest of a stream determines its whole history. */
module DeskRecords {
  import opened Options
  import opened Streams
  import opened DeskLedger
  import opened DeskRules
  import opened DeskStore
  import opened DeskInvariants
  import opened DeskHistory
  import opened DeskCustody

  ghost predicate InjectiveBriefs(d: Desk) {
    forall e, f :: d.briefSha(e) == d.briefSha(f) ==> e == f
  }

  ghost predicate InjectiveDecisions(d: Desk) {
    forall e, f :: d.decisionSha(e) == d.decisionSha(f) ==> e == f
  }

  lemma {:induction false} BriefTip(d: Desk, x: seq<Brief>, y: seq<Brief>)
    requires InjectiveBriefs(d) && BriefChain(d, x) && BriefChain(d, y)
    requires x != [] && y != [] && x[|x| - 1].sha == y[|y| - 1].sha
    ensures x == y
    decreases |x|
  {
    var m, n := |x| - 1, |y| - 1;
    assert BriefLink(d, x, m) && BriefLink(d, y, n);
    assert x[m] == y[n] && m == n;
    BriefChainPrefix(d, x, m);
    BriefChainPrefix(d, y, n);
    if m > 0 { BriefTip(d, x[..m], y[..n]); }
    assert x == x[..m] + [x[m]] && y == y[..n] + [y[n]];
  }

  lemma BriefChainPrefix(d: Desk, rows: seq<Brief>, n: nat)
    requires BriefChain(d, rows) && n <= |rows|
    ensures BriefChain(d, rows[..n])
  {
    forall i | 0 <= i < n
      ensures BriefLink(d, rows[..n], i)
    {
      assert BriefLink(d, rows, i);
    }
  }

  /** Equal tip digests mean equal tips, at equal places, on equal predecessors. */
  lemma DecisionTipLink(d: Desk, x: seq<Decision>, y: seq<Decision>, xBriefs: nat, yBriefs: nat)
    requires InjectiveDecisions(d) && DecisionChain(d, x, xBriefs) && DecisionChain(d, y, yBriefs)
    requires Numbered(x, DecisionRevision) && Numbered(y, DecisionRevision)
    requires x != [] && y != [] && x[|x| - 1].sha == y[|y| - 1].sha
    ensures |x| == |y| && x[|x| - 1] == y[|y| - 1]
    ensures |x| > 1 ==> x[|x| - 2].sha == y[|y| - 2].sha
  {
    assert DecisionLink(d, x, |x| - 1, xBriefs) && DecisionLink(d, y, |y| - 1, yBriefs);
    assert DecisionRevision(x[|x| - 1]) == |x| && DecisionRevision(y[|y| - 1]) == |y|;
  }

  lemma {:induction false} DecisionTip(d: Desk, x: seq<Decision>, y: seq<Decision>, xBriefs: nat, yBriefs: nat)
    requires InjectiveDecisions(d) && DecisionChain(d, x, xBriefs) && DecisionChain(d, y, yBriefs)
    requires Numbered(x, DecisionRevision) && Numbered(y, DecisionRevision)
    requires x != [] && y != [] && x[|x| - 1].sha == y[|y| - 1].sha
    ensures x == y
    decreases |x|
  {
    DecisionTipLink(d, x, y, xBriefs, yBriefs);
    var m := |x| - 1;
    if m > 0 {
      DecisionChainPrefix(d, x, m, xBriefs);
      DecisionChainPrefix(d, y, m, yBriefs);
      assert Numbered(x[..m], DecisionRevision) && Numbered(y[..m], DecisionRevision);
      hide InjectiveDecisions, DecisionChain, Numbered;
      DecisionTip(d, x[..m], y[..m], xBriefs, yBriefs);
    }
    assert x == x[..m] + [x[m]] && y == y[..m] + [y[m]];
  }

  lemma DecisionChainPrefix(d: Desk, rows: seq<Decision>, n: nat, briefs: nat)
    requires DecisionChain(d, rows, briefs) && n <= |rows|
    ensures DecisionChain(d, rows[..n], briefs)
  {
    forall i | 0 <= i < n
      ensures DecisionLink(d, rows[..n], i, briefs)
    {
      assert DecisionLink(d, rows, i, briefs);
    }
  }

  /** Two ledgers of any two runs whose latest briefs carry one digest agree on the
      whole brief history; revisions run 1..n and link to their predecessors. */
  lemma BriefTipDeterminesHistory(d: Desk, acts: seq<Action>, l: Ledger, a: Id, acts': seq<Action>, l': Ledger, a': Id)
    requires Injective(d) && InjectiveBriefs(d) && Run(d, EMPTY, acts) == Some(l) && Run(d, EMPTY, acts') == Some(l')
    requires BriefsOf(l.briefs, a) != [] && BriefsOf(l'.briefs, a') != []
    requires Last(BriefsOf(l.briefs, a)).value.sha == Last(BriefsOf(l'.briefs, a')).value.sha
    ensures BriefsOf(l.briefs, a) == BriefsOf(l'.briefs, a')
    ensures Numbered(BriefsOf(l.briefs, a), BriefRevision) && BriefChain(d, BriefsOf(l.briefs, a))
  {
    hide Inv, Run, Injective, BriefsOf, BriefChain, Numbered;
    BriefsAreChained(d, acts, l, a);
    BriefsAreChained(d, acts', l', a');
    BriefTip(d, BriefsOf(l.briefs, a), BriefsOf(l'.briefs, a'));
  }

  lemma BriefsAreChained(d: Desk, acts: seq<Action>, l: Ledger, a: Id)
    requires Injective(d) && Run(d, EMPTY, acts) == Some(l)
    ensures BriefChain(d, BriefsOf(l.briefs, a)) && Numbered(BriefsOf(l.briefs, a), BriefRevision)
  {
    ReachableInv(d, acts);
  }

  lemma DecisionTipDeterminesHistory(d: Desk, acts: seq<Action>, l: Ledger, a: Id, acts': seq<Action>, l': Ledger, a': Id)
    requires Injective(d) && InjectiveDecisions(d) && Run(d, EMPTY, acts) == Some(l) && Run(d, EMPTY, acts') == Some(l')
    requires DecisionsOf(l.decisions, a) != [] && DecisionsOf(l'.decisions, a') != []
    requires Last(DecisionsOf(l.decisions, a)).value.sha == Last(DecisionsOf(l'.decisions, a')).value.sha
    ensures DecisionsOf(l.decisions, a) == DecisionsOf(l'.decisions, a')
    ensures Numbered(DecisionsOf(l.decisions, a), DecisionRevision)
  {
    hide Run, Injective, BriefsOf, DecisionsOf, DecisionChain, Numbered;
    DecisionsAreChained(d, acts, l, a);
    DecisionsAreChained(d, acts', l', a');
    DecisionTip(d, DecisionsOf(l.decisions, a), DecisionsOf(l'.decisions, a'), |BriefsOf(l.briefs, a)|, |BriefsOf(l'.briefs, a')|);
  }

  lemma DecisionsAreChained(d: Desk, acts: seq<Action>, l: Ledger, a: Id)
    requires Injective(d) && Run(d, EMPTY, acts) == Some(l)
    ensures DecisionChain(d, DecisionsOf(l.decisions, a), |BriefsOf(l.briefs, a)|)
    ensures Numbered(DecisionsOf(l.decisions, a), DecisionRevision)
  {
    ReachableInv(d, acts);
  }

  lemma BriefsGrow(rows: seq<Brief>, more: seq<Brief>, a: Id)
    requires rows <= more
    ensures BriefsOf(rows, a) <= BriefsOf(more, a)
  {
    FilterPrefix(rows, more, (r: Brief) => r.entry.asg == a);
  }

  lemma LegalDecision(d: Desk, l: Ledger, row: Decision)
    requires Legal(d, l, AddDecision(row))
    ensures 1 <= row.entry.affected == |BriefsOf(l.briefs, row.entry.asg)|
  {
  }

  /** A ledger seen earlier in a run is a part of every later one. */
  lemma EarlierLedger(d: Desk, acts: seq<Action>, i: nat)
    requires Injective(d) && i <= |acts| && Run(d, EMPTY, acts).Some?
    ensures Run(d, EMPTY, acts[..i]).Some? && Inv(d, Run(d, EMPTY, acts[..i]).value)
    ensures Grows(Run(d, EMPTY, acts[..i]).value, Run(d, EMPTY, acts).value)
  {
    hide Injective, Inv, Grows;
    assert acts == acts[..i] + acts[i..];
    RunSplits(d, EMPTY, acts[..i], acts[i..]);
    ReachableInv(d, acts[..i]);
    HistoryIsKept(d, Run(d, EMPTY, acts[..i]).value, acts[i..]);
  }

  /** Every decision names the brief revision that was operative when it was
      appended, and that brief is still where it was. */
  lemma DecisionsNameTheOperativeBrief(d: Desk, acts: seq<Action>, l: Ledger, row: Decision)
    requires Injective(d) && Run(d, EMPTY, acts) == Some(l) && row in l.decisions
    ensures exists i: nat :: CommittedAt(d, acts, i, AddDecision(row)) &&
              var w := Run(d, EMPTY, acts[..i]).value;
              && row.entry.affected == CurrentBrief(w, row.entry.asg) >= 1
              && BriefsOf(w.briefs, row.entry.asg) <= BriefsOf(l.briefs, row.entry.asg)
  {
    var i, v := RowsAreCommitted(d, acts, AddDecision(row));
    CommittedIsLegal(d, acts, i, v);
    var w := Run(d, EMPTY, acts[..i]).value;
    LegalDecision(d, w, row);
    EarlierLedger(d, acts, i);
    assert Ordered(w);
    BriefsAreRead(w, row.entry.asg);
    BriefsGrow(w.briefs, l.briefs, row.entry.asg);
  }
}
