/** Check definitions and measured runs. */
module DeskCheckRunner {
  import opened Options
  import opened Streams
  import opened DeskLedger
  import opened DeskRules
  import opened DeskCommand

  const MAX_RETRIES_BOUND: nat := 1

  function DecideDeclareCheck(d: Desk, l: Ledger, c: Command): (o: Outcome)
    requires c.DeclareCheck?
    ensures o.Commit? ==> o.write.AddDefinition?
  {
    var gate := OwnerGate(l, c.actor, true, c.asg, ActorMismatch, RolloutConflict);
    if c.maxRetries > MAX_RETRIES_BOUND then Refused(InvalidRecord)
    else if gate.Denied? then Refused(gate.code)
    else if |l.definitions| >= d.limits.definitions then Refused(InvalidRecord)
    else if !exists s <- l.scopes :: s.asg == c.asg && s.scopeId == c.scopeId then Refused(ScopeConflict)
    else
      var stream := SortBy(DefinitionsOf(l.definitions, c.asg, c.checkId), DefinitionRevision);
      var latest := Last(stream);
      if latest.Some? && latest.value.scopeId != c.scopeId then Refused(ScopeConflict)
      else
        Commit(AddDefinition(Definition(c.checkId, c.asg, c.scopeId, c.requestId, LastKey(stream, DefinitionRevision) + 1,
                                        if latest.None? then None else Some(latest.value.revision), gate.tuple,
                                        StructuralRevision(l.assignments[c.asg]), c.digest, c.maxRetries)))
  }

  function AtRevision(defs: seq<Definition>, revision: nat): Option<Definition> {
    Find(defs, (def: Definition) => def.revision == revision)
  }

  lemma LatestAtRevision(defs: seq<Definition>, revision: nat)
    requires Numbered(defs, DefinitionRevision) && AtRevision(defs, revision).Some? && revision == LastKey(defs, DefinitionRevision)
    ensures defs != [] && revision == |defs| && AtRevision(defs, revision) == Some(defs[|defs| - 1])
    ensures defs[|defs| - 1].revision == |defs|
  {
    var found := AtRevision(defs, revision);
    var i :| 0 <= i < |defs| && defs[i] == found.value;
    assert DefinitionRevision(defs[i]) == i + 1;
    assert DefinitionRevision(defs[|defs| - 1]) == |defs|;
  }

  /** The pins a committed outcome was measured under. */
  datatype Pins = Pins(rolloutRevision: nat, candidate: Sha, head: Option<Id>)

  datatype Eligibility =
    | Ineligible(code: Code)
    | Eligible(definition: Definition, declaration: Rollout, prior: seq<CheckRun>)

  /** The gate run before execution without pins, and again at commit with them. */
  function CheckRunEligibility(d: Desk, l: Ledger, a: Id, rollout: Id, check: Id, definitionRevision: nat, pins: Option<Pins>): Eligibility {
    var decls := SortBy(RolloutsOf(l.rollouts, a, rollout), RolloutRevision);
    var defs := SortBy(DefinitionsOf(l.definitions, a, check), DefinitionRevision);
    var moves := SortBy(TransitionsOf(l.transitions, a, rollout), TransitionRevision);
    if |l.runs| >= d.limits.runs then Ineligible(InvalidRecord)
    else if decls == [] then Ineligible(RolloutConflict)
    else
      var declaration := decls[|decls| - 1];
      var found := AtRevision(defs, definitionRevision);
      if pins.Some? && pins.value.rolloutRevision != declaration.revision then Ineligible(RevisionConflict)
      else if pins.Some? && (pins.value.candidate != declaration.candidate || pins.value.head != declaration.head)
      then Ineligible(CandidateDrift)
      else if found.None? then Ineligible(InvalidRecord)
      else if definitionRevision != LastKey(defs, DefinitionRevision) then Ineligible(RevisionConflict)
      else if found.value.scopeId != declaration.scopeId then Ineligible(ScopeConflict)
      else if moves == [] || !moves[|moves| - 1].to.ChecksRunning? then Ineligible(RolloutConflict)
      else
        var prior := SortBy(RunsOf(l.runs, a, rollout, check, declaration.candidate), Attempt);
        if prior != [] && prior[0].definitionRevision != found.value.revision then Ineligible(RevisionConflict)
        else if exists r <- prior :: r.status.Passed? then Ineligible(RolloutConflict)
        else if |prior| > 0 && |prior| >= 1 + found.value.maxRetries then Ineligible(RetryExhausted)
        else Eligible(found.value, declaration, prior)
  }

  function DecideCommitRun(d: Desk, l: Ledger, c: Command): (o: Outcome)
    requires c.CommitRun?
    ensures o.Commit? ==> o.write.AddRun?
  {
    var gate := OwnerGate(l, c.actor, true, c.asg, ActorMismatch, RolloutConflict);
    if gate.Denied? then Refused(gate.code)
    else
      var e := CheckRunEligibility(d, l, c.asg, c.rolloutId, c.checkId, c.definitionRevision,
                                   Some(Pins(c.rolloutRevision, c.candidate, c.head)));
      if e.Ineligible? then Refused(e.code)
      else
        Commit(AddRun(CheckRun(d.derive(RunId, [c.actor, c.asg, c.rolloutId, c.checkId, c.requestId]),
                               c.asg, c.rolloutId, c.checkId, c.requestId, e.declaration.revision,
                               e.definition.revision, e.definition.digest, e.declaration.candidate, e.declaration.head, c.status,
                               |e.prior| + 1, if e.prior == [] then None else Some(e.prior[|e.prior| - 1].runId),
                               gate.tuple, c.evidence)))
  }

  lemma DeclareCheckIsLegal(d: Desk, l: Ledger, c: Command)
    requires Ordered(l) && c.DeclareCheck? && DecideDeclareCheck(d, l, c).Commit?
    ensures Legal(d, l, DecideDeclareCheck(d, l, c).write)
  {
    hide OwnerGate, SortBy, DefinitionsOf, Ordered;
    DefinitionsAreRead(l, c.asg, c.checkId);
  }

  /** What eligibility says once the streams are read in order. */
  lemma EligibleMeans(d: Desk, l: Ledger, a: Id, rollout: Id, check: Id, definitionRevision: nat, pins: Option<Pins>)
    requires Ordered(l)
    requires CheckRunEligibility(d, l, a, rollout, check, definitionRevision, pins).Eligible?
    ensures var e := CheckRunEligibility(d, l, a, rollout, check, definitionRevision, pins);
            var decls := RolloutsOf(l.rollouts, a, rollout);
            var defs := DefinitionsOf(l.definitions, a, check);
            var moves := TransitionsOf(l.transitions, a, rollout);
            && decls != [] && defs != [] && moves != []
            && e.declaration == decls[|decls| - 1] && e.declaration.revision == |decls|
            && e.definition == defs[|defs| - 1] && e.definition.revision == |defs| == definitionRevision
            && e.definition.scopeId == e.declaration.scopeId
            && moves[|moves| - 1].to.ChecksRunning?
            && e.prior == RunsOf(l.runs, a, rollout, check, e.declaration.candidate)
            && (forall r <- e.prior :: !r.status.Passed?)
            && (e.prior != [] ==> e.prior[0].definitionRevision == |defs| && |e.prior| < 1 + e.definition.maxRetries)
            && (pins.Some? ==> pins.value == Pins(e.declaration.revision, e.declaration.candidate, e.declaration.head))
  {
    var decls := RolloutsOf(l.rollouts, a, rollout);
    var defs := DefinitionsOf(l.definitions, a, check);
    hide Ordered, SortBy, Find, AtRevision, RolloutsOf, DefinitionsOf, TransitionsOf, RunsOf, Numbered;
    RolloutIsRead(l, a, rollout);
    DefinitionsAreRead(l, a, check);
    PassedGate(d, l, a, rollout, check, definitionRevision, pins);
    RunsAreRead(l, a, rollout, check, decls[|decls| - 1].candidate);
    LatestAtRevision(defs, definitionRevision);
    hide CheckRunEligibility;
  }

  /** The guards passed, in terms of the streams as the code reads them. */
  lemma PassedGate(d: Desk, l: Ledger, a: Id, rollout: Id, check: Id, definitionRevision: nat, pins: Option<Pins>)
    requires CheckRunEligibility(d, l, a, rollout, check, definitionRevision, pins).Eligible?
    ensures var e := CheckRunEligibility(d, l, a, rollout, check, definitionRevision, pins);
            var decls := SortBy(RolloutsOf(l.rollouts, a, rollout), RolloutRevision);
            var defs := SortBy(DefinitionsOf(l.definitions, a, check), DefinitionRevision);
            var moves := SortBy(TransitionsOf(l.transitions, a, rollout), TransitionRevision);
            && decls != [] && e.declaration == decls[|decls| - 1]
            && AtRevision(defs, definitionRevision) == Some(e.definition) && definitionRevision == LastKey(defs, DefinitionRevision)
            && e.definition.scopeId == e.declaration.scopeId
            && moves != [] && moves[|moves| - 1].to.ChecksRunning?
            && e.prior == SortBy(RunsOf(l.runs, a, rollout, check, e.declaration.candidate), Attempt)
            && (forall r <- e.prior :: !r.status.Passed?)
            && (e.prior != [] ==> e.prior[0].definitionRevision == e.definition.revision && |e.prior| < 1 + e.definition.maxRetries)
            && (pins.Some? ==> pins.value == Pins(e.declaration.revision, e.declaration.candidate, e.declaration.head))
  {
    hide SortBy, Find, AtRevision, RolloutsOf, DefinitionsOf, TransitionsOf, RunsOf;
  }

  lemma CommitRunIsLegal(d: Desk, l: Ledger, c: Command)
    requires Ordered(l) && c.CommitRun? && DecideCommitRun(d, l, c).Commit?
    ensures Legal(d, l, DecideCommitRun(d, l, c).write)
  {
    hide CheckRunEligibility, Owns, Ordered, RolloutsOf, DefinitionsOf, TransitionsOf, RunsOf;
    EligibleMeans(d, l, c.asg, c.rolloutId, c.checkId, c.definitionRevision, Some(Pins(c.rolloutRevision, c.candidate, c.head)));
  }
}
