/** Operative briefs and material decisions: digest-linked, owner-authored streams. */
module DeskAssignment {
  import opened Options
  import opened Streams
  import opened DeskLedger
  import opened DeskRules
  import opened DeskCommand

  function DecideAmend(d: Desk, l: Ledger, c: Command): (o: Outcome)
    requires c.Amend?
    ensures o.Commit? ==> o.write.AddBrief?
  {
    var gate := OwnerGate(l, c.actor, false, c.asg, AuthorityRequired, AuthorityRequired);
    if gate.Denied? then Refused(gate.code)
    else
      var latest := CurrentBrief(l, c.asg);
      var prior := Last(SortBy(BriefsOf(l.briefs, c.asg), BriefRevision));
      if c.expectedBrief != latest then Refused(RevisionConflict)
      else if |l.briefs| >= d.limits.briefs then Refused(InvalidRecord)
      else
        var entry := BriefEntry(c.asg, latest + 1, if prior.None? then 0 else prior.value.entry.revision,
                                if prior.None? then None else Some(prior.value.sha), c.body, gate.tuple, c.requestId);
        Commit(AddBrief(Brief(entry, d.briefSha(entry))))
  }

  function DecideDecision(d: Desk, l: Ledger, c: Command): (o: Outcome)
    requires c.AppendDecision?
    ensures o.Commit? ==> o.write.AddDecision?
  {
    var gate := OwnerGate(l, c.actor, false, c.asg, AuthorityRequired, AuthorityRequired);
    if gate.Denied? then Refused(gate.code)
    else
      var latest := CurrentBrief(l, c.asg);
      var stream := SortBy(DecisionsOf(l.decisions, c.asg), DecisionRevision);
      var prior := Last(stream);
      if c.expectedBrief != latest then Refused(RevisionConflict)
      else if latest == 0 || c.affected != latest then Refused(RevisionConflict)
      else if |l.decisions| >= d.limits.decisions then Refused(InvalidRecord)
      else
        var entry := DecisionEntry(d.derive(DecisionId, [c.asg, c.actor, c.requestId]), c.asg,
                                   LastKey(stream, DecisionRevision) + 1,
                                   if prior.None? then None else Some(prior.value.entry.decisionId),
                                   if prior.None? then None else Some(prior.value.sha),
                                   c.affected, c.body, gate.tuple, c.requestId);
        Commit(AddDecision(Decision(entry, d.decisionSha(entry))))
  }

  lemma AmendIsLegal(d: Desk, l: Ledger, c: Command)
    requires Ordered(l) && c.Amend? && DecideAmend(d, l, c).Commit?
    ensures Legal(d, l, DecideAmend(d, l, c).write)
  {
    BriefsAreRead(l, c.asg);
  }

  lemma DecisionIsLegal(d: Desk, l: Ledger, c: Command)
    requires Ordered(l) && c.AppendDecision? && DecideDecision(d, l, c).Commit?
    ensures Legal(d, l, DecideDecision(d, l, c).write)
  {
    BriefsAreRead(l, c.asg);
    NumberedIsSorted(DecisionsOf(l.decisions, c.asg), DecisionRevision);
  }
}
