/** Check evidence over whole runs: retry streams, measured pins, and discharges. */
module DeskEvidence {
  import opened Options
  import opened Streams
  import opened DeskLedger
  import opened DeskRules
  import opened DeskCommand
  import opened DeskCheckRunner
  import opened DeskStore
  import opened DeskInvariants
  import opened DeskHistory
  import opened DeskCustody
  import opened DeskRecords

  // ----------------------------------------------------------- retry streams

  /** Attempts run 1..k, each naming the run it retries; one definition revision
      throughout; at most one retry; and only the last run can have passed. */
  lemma RetryStreams(d: Desk, acts: seq<Action>, l: Ledger, a: Id, rollout: Id, check: Id, candidate: Sha)
    requires Injective(d) && Run(d, EMPTY, acts) == Some(l)
    ensures var runs, defs := RunsOf(l.runs, a, rollout, check, candidate), DefinitionsOf(l.definitions, a, check);
            && (forall i :: 0 <= i < |runs| ==> runs[i].attempt == i + 1 && RetryLink(runs, i))
            && (runs != [] ==>
                  && 1 <= runs[0].definitionRevision <= |defs|
                  && |runs| <= 1 + defs[runs[0].definitionRevision - 1].maxRetries <= 2)
  {
    ReachableInv(d, acts);
    var runs, defs := RunsOf(l.runs, a, rollout, check, candidate), DefinitionsOf(l.definitions, a, check);
    assert RetryStream(runs, defs) && DefinitionChain(defs) && Numbered(runs, Attempt);
    forall i | 0 <= i < |runs|
      ensures runs[i].attempt == i + 1 && RetryLink(runs, i)
    {
      assert Attempt(runs[i]) == i + 1;
    }
  }

  lemma RunsGrow(rows: seq<CheckRun>, more: seq<CheckRun>, a: Id, rollout: Id, check: Id, candidate: Sha)
    requires rows <= more
    ensures RunsOf(rows, a, rollout, check, candidate) <= RunsOf(more, a, rollout, check, candidate)
  {
    FilterPrefix(rows, more, (r: CheckRun) => r.asg == a && r.rolloutId == rollout && r.checkId == check && r.candidate == candidate);
  }

  lemma DefinitionsGrow(rows: seq<Definition>, more: seq<Definition>, a: Id, check: Id)
    requires rows <= more
    ensures DefinitionsOf(rows, a, check) <= DefinitionsOf(more, a, check)
  {
    FilterPrefix(rows, more, (r: Definition) => r.asg == a && r.checkId == check);
  }

  /** A stream that takes no further run: its definition was amended, or it passed. */
  ghost predicate Frozen(l: Ledger, a: Id, rollout: Id, check: Id, candidate: Sha) {
    var runs := RunsOf(l.runs, a, rollout, check, candidate);
    && runs != []
    && (runs[0].definitionRevision < |DefinitionsOf(l.definitions, a, check)| || exists r <- runs :: r.status.Passed?)
  }

  lemma FrozenTakesNoRun(d: Desk, l: Ledger, w: Write, a: Id, rollout: Id, check: Id, candidate: Sha)
    requires Legal(d, l, w) && Frozen(l, a, rollout, check, candidate)
    ensures RunsOf(Apply(l, w).runs, a, rollout, check, candidate) == RunsOf(l.runs, a, rollout, check, candidate)
  {
    hide RunsOf, DefinitionsOf, TransitionsOf, RolloutsOf, Owns, AcceptLegal, OfferLegal, BriefLegal, DecisionLegal;
    hide DefinitionLegal, RolloutLegal, TransitionLegal, HandbackLegal, ObserveLegal;
    Untouched(l, w);
    if w.AddRun? { RunsAppend(l.runs, w.run, a, rollout, check, candidate); }
  }

  lemma StaysFrozen(l: Ledger, l': Ledger, a: Id, rollout: Id, check: Id, candidate: Sha)
    requires Frozen(l, a, rollout, check, candidate) && l.definitions <= l'.definitions
    requires RunsOf(l'.runs, a, rollout, check, candidate) == RunsOf(l.runs, a, rollout, check, candidate)
    ensures Frozen(l', a, rollout, check, candidate)
  {
    DefinitionsGrow(l.definitions, l'.definitions, a, check);
  }

  lemma NextKeepsFrozen(d: Desk, l: Ledger, act: Action, a: Id, rollout: Id, check: Id, candidate: Sha)
    requires Ordered(l) && Enabled(l, act) && Frozen(l, a, rollout, check, candidate)
    ensures RunsOf(Next(d, l, act).runs, a, rollout, check, candidate) == RunsOf(l.runs, a, rollout, check, candidate)
    ensures Frozen(Next(d, l, act), a, rollout, check, candidate)
  {
    hide Decide, Legal, Ordered, Apply, Frozen, RunsOf;
    if act.Submit? && Answer(d, l, act.command).Fresh? && Decide(d, l, act.command).Commit? {
      var w := Decide(d, l, act.command).write;
      DecisionsAreLegal(d, l, act.command);
      FrozenTakesNoRun(d, l, w, a, rollout, check, candidate);
      TablesGrow(l, w);
    }
    StaysFrozen(l, Next(d, l, act), a, rollout, check, candidate);
  }

  /** Amending a check's definition, or passing it, freezes its stream for all later ledgers. */
  lemma {:induction false} FrozenForever(d: Desk, l: Ledger, more: seq<Action>, a: Id, rollout: Id, check: Id, candidate: Sha)
    requires Injective(d) && Inv(d, l) && Run(d, l, more).Some? && Frozen(l, a, rollout, check, candidate)
    ensures var l' := Run(d, l, more).value;
            && RunsOf(l'.runs, a, rollout, check, candidate) == RunsOf(l.runs, a, rollout, check, candidate)
            && Frozen(l', a, rollout, check, candidate)
    decreases |more|
  {
    hide Injective, Inv, Next, Frozen, RunsOf;
    if more != [] {
      var before := more[..|more| - 1];
      FrozenForever(d, l, before, a, rollout, check, candidate);
      HistoryIsKept(d, l, before);
      InvMeans(d, Run(d, l, before).value);
      TablesMean(d, Run(d, l, before).value);
      NextKeepsFrozen(d, Run(d, l, before).value, more[|more| - 1], a, rollout, check, candidate);
    }
  }

  // ----------------------------------------------------------- measured pins

  lemma TransitionsGrow(rows: seq<Transition>, more: seq<Transition>, a: Id, rollout: Id)
    requires rows <= more
    ensures TransitionsOf(rows, a, rollout) <= TransitionsOf(more, a, rollout)
  {
    FilterPrefix(rows, more, (r: Transition) => r.asg == a && r.rolloutId == rollout);
  }

  lemma LegalRun(d: Desk, l: Ledger, row: CheckRun)
    requires Legal(d, l, AddRun(row))
    ensures RunLegal(d, l, row)
  {
  }

  /** The run command that a preflight at `l` leads to, whatever the class measured. */
  predicate CarriesPins(d: Desk, l: Ledger, c: Command) {
    c.CommitRun? &&
    var e := CheckRunEligibility(d, l, c.asg, c.rolloutId, c.checkId, c.definitionRevision, None);
    e.Eligible? && c.rolloutRevision == e.declaration.revision && c.candidate == e.declaration.candidate && c.head == e.declaration.head
  }

  lemma CommitIsMeasured(d: Desk, l: Ledger, c: Command)
    requires Ordered(l) && c.CommitRun? && DecideCommitRun(d, l, c).Commit?
    ensures var row := DecideCommitRun(d, l, c).write.run;
            && row.asg == c.asg && row.rolloutId == c.rolloutId && row.checkId == c.checkId && row.status == c.status
            && row.rolloutRevision == c.rolloutRevision == |RolloutsOf(l.rollouts, c.asg, c.rolloutId)|
            && row.definitionRevision == c.definitionRevision == |DefinitionsOf(l.definitions, c.asg, c.checkId)|
            && row.candidate == c.candidate && row.head == c.head
  {
    hide CheckRunEligibility, Ordered, RolloutsOf, DefinitionsOf, TransitionsOf, RunsOf, OwnerGate;
    EligibleMeans(d, l, c.asg, c.rolloutId, c.checkId, c.definitionRevision, Some(Pins(c.rolloutRevision, c.candidate, c.head)));
  }

  /** The row carries the pins of the declaration and definition in force at `l`,
      where the rollout is running checks. */
  ghost predicate MeasuredUnder(l: Ledger, row: CheckRun) {
    var decls, defs := RolloutsOf(l.rollouts, row.asg, row.rolloutId), DefinitionsOf(l.definitions, row.asg, row.checkId);
    var moves := TransitionsOf(l.transitions, row.asg, row.rolloutId);
    && decls != [] && defs != [] && moves != [] && moves[|moves| - 1].to.ChecksRunning?
    && row.rolloutRevision == |decls| && row.candidate == decls[|decls| - 1].candidate && row.head == decls[|decls| - 1].head
    && row.definitionRevision == |defs| && row.definitionDigest == defs[|defs| - 1].digest
  }

  lemma PreflightPins(d: Desk, l: Ledger, c: Command)
    requires Ordered(l) && CarriesPins(d, l, c)
    ensures var decls, defs := RolloutsOf(l.rollouts, c.asg, c.rolloutId), DefinitionsOf(l.definitions, c.asg, c.checkId);
            var moves := TransitionsOf(l.transitions, c.asg, c.rolloutId);
            && decls != [] && defs != [] && moves != [] && moves[|moves| - 1].to.ChecksRunning?
            && c.rolloutRevision == |decls| && c.definitionRevision == |defs|
  {
    hide CheckRunEligibility, Ordered, RolloutsOf, DefinitionsOf, TransitionsOf, RunsOf;
    EligibleMeans(d, l, c.asg, c.rolloutId, c.checkId, c.definitionRevision, None);
  }

  /** A run measured under a preflight at `l` and committed at any later `l'` was
      not overtaken: between the two nobody redeclared the rollout or amended the
      check, and the committed row carries exactly the pins in force at both ends. */
  lemma MeasuredPinsHold(d: Desk, l: Ledger, more: seq<Action>, l': Ledger, c: Command, row: CheckRun)
    requires Injective(d) && Inv(d, l) && Run(d, l, more) == Some(l')
    requires CarriesPins(d, l, c) && Decide(d, l', c) == Commit(AddRun(row))
    ensures row.asg == c.asg && row.rolloutId == c.rolloutId && row.checkId == c.checkId && row.status == c.status
    ensures RolloutsOf(l'.rollouts, row.asg, row.rolloutId) == RolloutsOf(l.rollouts, row.asg, row.rolloutId)
    ensures DefinitionsOf(l'.definitions, row.asg, row.checkId) == DefinitionsOf(l.definitions, row.asg, row.checkId)
    ensures MeasuredUnder(l, row) && MeasuredUnder(l', row)
  {
    hide Injective, Inv, Run, CarriesPins, RolloutsOf, DefinitionsOf, TransitionsOf, RunsOf, Decide, TableInv, Ordered;
    OnlyRuns(d, l, c);
    LaterCustody(d, l, more, l', c.asg);
    InvMeans(d, l');
    TablesMean(d, l);
    TablesMean(d, l');
    PreflightPins(d, l, c);
    CommittedPins(d, l', c, row);
    RolloutsGrow(l.rollouts, l'.rollouts, c.asg, c.rolloutId);
    DefinitionsGrow(l.definitions, l'.definitions, c.asg, c.checkId);
  }

  lemma CommittedPins(d: Desk, l: Ledger, c: Command, row: CheckRun)
    requires Ordered(l) && c.CommitRun? && Decide(d, l, c) == Commit(AddRun(row))
    ensures MeasuredUnder(l, row) && row.rolloutRevision == c.rolloutRevision && row.definitionRevision == c.definitionRevision
    ensures row.asg == c.asg && row.rolloutId == c.rolloutId && row.checkId == c.checkId && row.status == c.status
  {
    hide DecideCommitRun, Legal, RolloutsOf, DefinitionsOf, TransitionsOf, RunsOf, Ordered, Owns;
    CommitIsMeasured(d, l, c);
    DecisionsAreLegal(d, l, c);
    LegalRun(d, l, row);
  }

  lemma OnlyRuns(d: Desk, l: Ledger, c: Command)
    requires CarriesPins(d, l, c)
    ensures c.CommitRun?
  {
    hide CheckRunEligibility;
  }

  /** Otherwise nothing is appended: when the declaration or definition moved on
      meanwhile, the measured outcome is refused. */
  lemma OvertakenRunIsRefused(d: Desk, l: Ledger, more: seq<Action>, l': Ledger, c: Command)
    requires Injective(d) && Inv(d, l) && Run(d, l, more) == Some(l') && CarriesPins(d, l, c)
    requires RolloutsOf(l'.rollouts, c.asg, c.rolloutId) != RolloutsOf(l.rollouts, c.asg, c.rolloutId)
             || DefinitionsOf(l'.definitions, c.asg, c.checkId) != DefinitionsOf(l.definitions, c.asg, c.checkId)
    ensures Decide(d, l', c).Refused? && Transact(d, l', c).runs == l'.runs
  {
    hide Injective, Inv, Run, CheckRunEligibility, CarriesPins, RolloutsOf, DefinitionsOf, DecideCommitRun;
    OnlyRuns(d, l, c);
    if Decide(d, l', c).Commit? {
      MeasuredPinsHold(d, l, more, l', c, Decide(d, l', c).write.run);
    }
  }

  // -------------------------------------------------------------- discharges

  /** Filtering a stream further is filtering the table by both conditions. */
  lemma {:induction false} FilterFilter<T>(xs: seq<T>, keep: T -> bool, also: T -> bool, both: T -> bool)
    requires forall x <- xs :: both(x) == (keep(x) && also(x))
    ensures Filter(xs, both) == Filter(Filter(xs, keep), also)
  {
    if xs != [] {
      var init, last := xs[..|xs| - 1], xs[|xs| - 1];
      FilterFilter(init, keep, also, both);
      if keep(last) { FilterAppend(Filter(init, keep), last, also); }
      assert Filter(init, keep) + [] == Filter(init, keep);
    }
  }

  lemma {:induction false} OnlyLastKept<T>(xs: seq<T>, keep: T -> bool)
    requires forall i :: 0 <= i < |xs| - 1 ==> !keep(xs[i])
    ensures Filter(xs, keep) == if xs != [] && keep(xs[|xs| - 1]) then [xs[|xs| - 1]] else []
  {
    if xs != [] {
      var init := xs[..|xs| - 1];
      NoneKept(init, keep);
    }
  }

  lemma {:induction false} NoneKept<T>(xs: seq<T>, keep: T -> bool)
    requires forall i :: 0 <= i < |xs| ==> !keep(xs[i])
    ensures Filter(xs, keep) == []
  {
    if xs != [] { NoneKept(xs[..|xs| - 1], keep); }
  }

  /** At most one run qualifies for a required check, so "the latest passed" has no choice. */
  lemma OneQualifies(l: Ledger, decl: Rollout, required: Required)
    requires CheckInv(l)
    ensures var runs := RunsOf(l.runs, decl.asg, decl.rolloutId, required.checkId, decl.candidate);
            Qualifying(l.runs, decl, required) ==
            if runs != [] && runs[|runs| - 1].status.Passed? && runs[|runs| - 1].definitionDigest == required.digest
            then [runs[|runs| - 1]] else []
  {
    var runs := RunsOf(l.runs, decl.asg, decl.rolloutId, required.checkId, decl.candidate);
    var keep := (r: CheckRun) => r.asg == decl.asg && r.rolloutId == decl.rolloutId && r.checkId == required.checkId && r.candidate == decl.candidate;
    var also := (r: CheckRun) => r.status.Passed? && r.definitionDigest == required.digest;
    FilterFilter(l.runs, keep, also, (r: CheckRun) => Qualifies(r, decl, required));
    assert RetryStream(runs, DefinitionsOf(l.definitions, decl.asg, required.checkId));
    hide CheckInv, DefinitionsOf;
    forall i | 0 <= i < |runs| - 1
      ensures !also(runs[i])
    {
      assert RetryLink(runs, i);
    }
    OnlyLastKept(runs, also);
  }

  lemma QualifyingGrows(runs: seq<CheckRun>, more: seq<CheckRun>, decl: Rollout, required: Required)
    requires runs <= more
    ensures Qualifying(runs, decl, required) <= Qualifying(more, decl, required)
  {
    FilterPrefix(runs, more, (r: CheckRun) => Qualifies(r, decl, required));
  }

  lemma SortOne(xs: seq<CheckRun>)
    requires |xs| <= 1
    ensures SortBy(xs, Attempt) == xs
  {
    if |xs| == 1 {
      assert xs[..0] == [];
    }
  }

  /** Once the check gate is satisfiable for a declaration it stays so, and
      resolves to the very same runs, in every later ledger. */
  lemma {:induction false} DischargesAreStable(l: Ledger, l': Ledger, decl: Rollout, required: seq<Required>)
    requires CheckInv(l) && CheckInv(l') && l.runs <= l'.runs
    requires Discharges(l.runs, decl, required).Some?
    ensures Discharges(l'.runs, decl, required) == Discharges(l.runs, decl, required)
  {
    hide CheckInv, Qualifying;
    if required != [] {
      var last := required[|required| - 1];
      DischargesAreStable(l, l', decl, required[..|required| - 1]);
      var before, after := Qualifying(l.runs, decl, last), Qualifying(l'.runs, decl, last);
      OneQualifies(l, decl, last);
      OneQualifies(l', decl, last);
      QualifyingGrows(l.runs, l'.runs, decl, last);
      SortOne(before);
      SortOne(after);
    }
  }

  lemma GateStaysOpen(d: Desk, l: Ledger, more: seq<Action>, l': Ledger, decl: Rollout)
    requires Injective(d) && Inv(d, l) && Run(d, l, more) == Some(l')
    requires Discharges(l.runs, decl, decl.required).Some?
    ensures Discharges(l'.runs, decl, decl.required) == Discharges(l.runs, decl, decl.required)
  {
    hide Injective, Inv, Run, Discharges, CheckInv;
    LaterCustody(d, l, more, l', decl.asg);
    InvMeans(d, l');
    TablesMean(d, l);
    TablesMean(d, l');
    DischargesAreStable(l, l', decl, decl.required);
  }

  /** The declaration a transition row pins. */
  function DeclarationOf(l: Ledger, t: Transition): Option<Rollout> {
    var decls := RolloutsOf(l.rollouts, t.asg, t.rolloutId);
    if 1 <= t.rolloutRevision <= |decls| then Some(decls[t.rolloutRevision - 1]) else None
  }

  lemma QualifiedIsTheOne(l: Ledger, decl: Rollout, required: Required, r: CheckRun, s: CheckRun)
    requires CheckInv(l) && r in l.runs && s in l.runs && Qualifies(r, decl, required) && Qualifies(s, decl, required)
    ensures r == s
  {
    OneQualifies(l, decl, required);
    FilterMember(l.runs, (x: CheckRun) => Qualifies(x, decl, required));
    assert r in Qualifying(l.runs, decl, required) && s in Qualifying(l.runs, decl, required);
  }

  lemma SameEvidence(l: Ledger, decl: Rollout, other: Rollout, checks: seq<Discharge>, others: seq<Discharge>)
    requires CheckInv(l) && decl.asg == other.asg && decl.rolloutId == other.rolloutId
    requires decl.candidate == other.candidate && decl.required == other.required
    requires Evidence(l.runs, decl, decl.required, checks) && Evidence(l.runs, other, other.required, others)
    ensures checks == others
  {
    hide CheckInv;
    forall i | 0 <= i < |checks|
      ensures checks[i] == others[i]
    {
      var required := decl.required[i];
      assert Discharged(l.runs, decl, required, checks[i]) && Discharged(l.runs, other, required, others[i]);
      var r :| r in l.runs && r.runId == checks[i].runId && Qualifies(r, decl, required);
      var s :| s in l.runs && s.runId == others[i].runId && Qualifies(s, other, required);
      QualifiedIsTheOne(l, decl, required, r, s);
    }
  }

  /** The check gates of one rollout record identical discharges whenever their
      declarations pin the same candidate and required checks. */
  lemma GatesAgree(d: Desk, acts: seq<Action>, l: Ledger, t: Transition, u: Transition)
    requires Injective(d) && Run(d, EMPTY, acts) == Some(l) && t in l.transitions && u in l.transitions
    requires t.asg == u.asg && t.rolloutId == u.rolloutId
    requires t.command.Some? && CheckGated(t.command.value) && u.command.Some? && CheckGated(u.command.value)
    requires DeclarationOf(l, t).Some? && DeclarationOf(l, u).Some?
    requires DeclarationOf(l, t).value.candidate == DeclarationOf(l, u).value.candidate
    requires DeclarationOf(l, t).value.required == DeclarationOf(l, u).value.required
    ensures t.checks == u.checks
  {
    ReachableInv(d, acts);
    assert GateEvidence(l, t) && GateEvidence(l, u);
    hide Injective, Inv, Run, Evidence, RolloutsOf;
    FoundInStream(l, t);
    FoundInStream(l, u);
    InvMeans(d, l);
    TablesMean(d, l);
    SameEvidence(l, DeclarationOf(l, t).value, DeclarationOf(l, u).value, t.checks, u.checks);
  }

  lemma FoundInStream(l: Ledger, t: Transition)
    requires DeclarationOf(l, t).Some?
    ensures var decl := DeclarationOf(l, t).value; decl in l.rollouts && decl.asg == t.asg && decl.rolloutId == t.rolloutId
  {
    FilterMember(l.rollouts, (r: Rollout) => r.asg == t.asg && r.rolloutId == t.rolloutId);
    assert DeclarationOf(l, t).value in RolloutsOf(l.rollouts, t.asg, t.rolloutId);
  }
}
