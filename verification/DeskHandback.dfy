/** Registration, seats, closing, and the two-commit handback. */
module DeskHandback {
  import opened Options
  import opened Streams
  import opened DeskLedger
  import opened DeskRules
  import opened DeskCommand

  function DecideRegister(d: Desk, l: Ledger, c: Command): (o: Outcome)
    requires c.Register?
    ensures o.Commit? ==> o.write.AddAssignment?
  {
    var gate := ActorGate(l, c.actor, true);
    var a := d.derive(AsgId, [c.actor, c.requestId]);
    if gate.Denied? then Refused(gate.code)
    else if |l.assignments| >= d.limits.assignments then Refused(InvalidRecord)
    else if a in l.assignments then Refused(InvalidRecord)
    else Commit(AddAssignment(a, Assignment(gate.tuple, true, [], c.content)))
  }

  function DecideAttach(d: Desk, l: Ledger, c: Command): (o: Outcome)
    requires c.Attach?
    ensures o.Commit? ==> o.write.Nothing? || o.write.AddSeat?
  {
    var gate := OwnerGate(l, c.actor, true, c.asg, AuthorityRequired, AuthorityRequired);
    var target := LiveMember(l.members, c.agent);
    if gate.Denied? then Refused(gate.code)
    else if c.agent in AgentsOf(l.assignments[c.asg].seats) then Commit(Nothing)
    else if target.None? then Refused(InvalidRecord)
    else if |l.assignments[c.asg].seats| >= d.limits.seats then Refused(InvalidRecord)
    else Commit(AddSeat(c.asg, Seat(c.agent, target.value.membership)))
  }

  function DecideClose(d: Desk, l: Ledger, c: Command): (o: Outcome)
    requires c.Close?
    ensures o.Commit? ==> o.write.Nothing? || o.write.CloseAssignment?
  {
    var gate := ActorGate(l, c.actor, true);
    if gate.Denied? then Refused(gate.code)
    else if c.asg !in l.assignments then Refused(AuthorityRequired)
    else if EffectiveOwner(l, c.asg).tuple != gate.tuple then Refused(AuthorityRequired)
    else if !l.assignments[c.asg].open then Commit(Nothing)
    else Commit(CloseAssignment(c.asg))
  }

  /** Largest revision in a stream, 0 when it is empty. */
  function MaxRevision(rows: seq<Handback>): nat {
    if rows == [] then 0
    else
      var before, last := MaxRevision(rows[..|rows| - 1]), rows[|rows| - 1].revision;
      if before >= last then before else last
  }

  lemma {:induction false} MaxOfNumbered(rows: seq<Handback>)
    requires Numbered(rows, HandbackRevision)
    ensures MaxRevision(rows) == |rows|
  {
    if rows != [] {
      MaxOfNumbered(rows[..|rows| - 1]);
      assert HandbackRevision(rows[|rows| - 1]) == |rows|;
    }
  }

  function DecideSubmit(d: Desk, l: Ledger, c: Command): (o: Outcome)
    requires c.SubmitHandback?
    ensures o.Commit? ==> o.write.AddHandback? && RowKey(o.write) == Some(KeyOf(c))
  {
    var gate := ActorGate(l, c.actor, false);
    if gate.Denied? then Refused(gate.code)
    else if c.asg !in l.assignments then Refused(AuthorityRequired)
    else if !l.assignments[c.asg].open then Refused(AuthorityRequired)
    else if c.actor !in AgentsOf(l.assignments[c.asg].seats) then Refused(AuthorityRequired)
    else if d.reportProblem(c.record) then Refused(InvalidRecord)
    else if c.candidateId.Some? && !(exists k <- l.candidates :: k.candidateId == c.candidateId.value && k.asg == c.asg)
    then Refused(InvalidRecord)
    else if |l.handbacks| >= d.limits.handbacks then Refused(InvalidRecord)
    else
      Commit(AddHandback(Handback(d.derive(HandbackId, [c.actor, c.asg, c.requestId]), c.asg, c.actor, gate.tuple.membership,
                                  c.requestId, MaxRevision(HandbacksOf(l.handbacks, c.asg, c.actor)) + 1, c.record, c.candidateId,
                                  Pending(LiveMember(l.members, c.actor).value.createCwd), d.warnings(c.record))))
  }

  function HandbackNamed(hs: seq<Handback>, id: Id): Option<Handback> {
    Find(hs, (h: Handback) => h.handbackId == id)
  }

  function DecideObserve(d: Desk, l: Ledger, c: Command): (o: Outcome)
    requires c.ObserveHandback?
    ensures o.Commit? ==> o.write.Nothing? || o.write.Observe?
  {
    var gate := ActorGate(l, c.actor, false);
    var found := HandbackNamed(l.handbacks, c.handbackId);
    if gate.Denied? then Refused(gate.code)
    else if found.None? then Refused(InvalidRecord)
    else if found.value.agent != c.actor then Refused(AuthorityRequired)
    else if !found.value.observed.Pending? then Commit(Nothing)
    else if c.capture.repository != found.value.observed.repository then Refused(InvalidRecord)
    else if c.capture.NotMeasured? then
      Commit(Observe(c.handbackId, CaptureFailed(c.capture.repository, c.capture.reason), found.value.gaps + [c.capture.reason], None))
    else if |l.candidates| >= d.limits.candidates then Refused(InvalidRecord)
    else
      var h := found.value;
      var id := d.derive(CandidateId, [c.handbackId]);
      Commit(Observe(c.handbackId, Captured(id, c.capture.repository), h.gaps,
                     Some(Candidate(id, h.asg, h.agent, h.seatMembership, c.capture.repository, c.capture.snapshot, c.capture.head))))
  }

  lemma RegistrationIsLegal(d: Desk, l: Ledger, c: Command)
    requires c.Register? && DecideRegister(d, l, c).Commit?
    ensures Legal(d, l, DecideRegister(d, l, c).write)
  {
  }

  lemma AttachIsLegal(d: Desk, l: Ledger, c: Command)
    requires c.Attach? && DecideAttach(d, l, c).Commit?
    ensures Legal(d, l, DecideAttach(d, l, c).write)
  {
  }

  lemma CloseIsLegal(d: Desk, l: Ledger, c: Command)
    requires c.Close? && DecideClose(d, l, c).Commit?
    ensures Legal(d, l, DecideClose(d, l, c).write)
  {
  }

  lemma SubmitIsLegal(d: Desk, l: Ledger, c: Command)
    requires Ordered(l) && c.SubmitHandback? && DecideSubmit(d, l, c).Commit?
    ensures Legal(d, l, DecideSubmit(d, l, c).write)
  {
    MaxOfNumbered(HandbacksOf(l.handbacks, c.asg, c.actor));
  }

  lemma ObserveIsLegal(d: Desk, l: Ledger, c: Command)
    requires c.ObserveHandback? && DecideObserve(d, l, c).Commit?
    ensures Legal(d, l, DecideObserve(d, l, c).write)
  {
    var found := HandbackNamed(l.handbacks, c.handbackId);
    assert found.value in l.handbacks && found.value.handbackId == c.handbackId;
  }
}
