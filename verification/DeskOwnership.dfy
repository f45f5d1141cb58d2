/** Planned succession: offers, acceptances, and who takes part in an assignment. */
module DeskOwnership {
  import opened Options
  import opened Streams
  import opened DeskLedger
  import opened DeskRules
  import opened DeskCommand

  /** Both custody commands: a live lead, then a registered and open assignment. */
  function CustodyGate(l: Ledger, actor: Id, a: Id): (g: Gate)
    ensures g.Granted? ==> OpenAssignment(l, a) && IsLead(l, g.tuple) && g.tuple.agent == actor
  {
    var gate := ActorGate(l, actor, true);
    if gate.Denied? then gate
    else if a !in l.assignments then Denied(AuthorityRequired)
    else if !l.assignments[a].open then Denied(AuthorityRequired)
    else gate
  }

  function DecideOffer(d: Desk, l: Ledger, c: Command): (o: Outcome)
    requires c.OfferCustody?
    ensures o.Commit? ==> o.write.AddOffer? && RowKey(o.write) == Some(KeyOf(c))
  {
    var gate := CustodyGate(l, c.actor, c.asg);
    if gate.Denied? then Refused(gate.code)
    else
      var owner := EffectiveOwner(l, c.asg);
      var target := LiveMember(l.members, c.nominee.agent);
      if owner.tuple != gate.tuple then Refused(AuthorityRequired)
      else if c.expectedOwnership != owner.revision then Refused(RevisionConflict)
      else if target.None? || !target.value.role.Lead? || target.value.membership != c.nominee.membership then Refused(ActorMismatch)
      else if c.nominee == gate.tuple then Refused(InvalidRecord)
      else if |l.offers| >= d.limits.offers then Refused(InvalidRecord)
      else
        Commit(AddOffer(Offer(d.derive(OfferId, [c.actor, c.asg, c.requestId]), c.asg, c.requestId, owner.revision,
                              gate.tuple, c.nominee, c.content)))
  }

  function OfferNamed(offers: seq<Offer>, id: Id, a: Id): Option<Offer> {
    Find(offers, (o: Offer) => o.offerId == id && o.asg == a)
  }

  function DecideAccept(d: Desk, l: Ledger, c: Command): (o: Outcome)
    requires c.AcceptCustody?
    ensures o.Commit? ==> o.write.AddAccept?
  {
    var gate := CustodyGate(l, c.actor, c.asg);
    if gate.Denied? then Refused(gate.code)
    else
      var owner := EffectiveOwner(l, c.asg);
      var found := OfferNamed(l.offers, c.offerId, c.asg);
      if found.None? then Refused(AuthorityRequired)
      else
        var offer := found.value;
        var brief := LastKey(BriefsOf(l.briefs, c.asg), BriefRevision);
        if offer.to != gate.tuple then Refused(AuthorityRequired)
        else if offer.revision != owner.revision || c.expectedOwnership != owner.revision then Refused(RevisionConflict)
        else if exists r <- l.accepts :: r.offerId == offer.offerId then Refused(RevisionConflict)
        else if c.expectedLedger != l.revision then Refused(RevisionConflict)
        else if c.expectedBrief != brief then Refused(RevisionConflict)
        else if |l.accepts| >= d.limits.accepts then Refused(InvalidRecord)
        else
          Commit(AddAccept(Accept(d.derive(AcceptId, [c.actor, c.asg, c.requestId]), offer.offerId, c.asg, c.requestId,
                                  offer.revision + 1, offer.from, offer.to, l.revision, brief, c.settled, c.content)))
  }

  lemma OfferIsLegal(d: Desk, l: Ledger, c: Command)
    requires c.OfferCustody? && DecideOffer(d, l, c).Commit?
    ensures Legal(d, l, DecideOffer(d, l, c).write)
  {
  }

  lemma AcceptIsLegal(d: Desk, l: Ledger, c: Command)
    requires Ordered(l) && c.AcceptCustody? && DecideAccept(d, l, c).Commit?
    ensures Legal(d, l, DecideAccept(d, l, c).write)
  {
    assert OfferNamed(l.offers, c.offerId, c.asg).value in l.offers;
    assert Numbered(BriefsOf(l.briefs, c.asg), BriefRevision);
  }

  datatype Part = CurrentOwner | PriorOwner | AttachedSeat | OfferNominee

  /** Every owner tuple in custody order. */
  function Lineage(registered: Seat, rows: seq<Accept>): (owners: seq<Seat>)
    ensures |owners| == |rows| + 1 && owners[0] == registered
  {
    [registered] + seq(|rows|, i requires 0 <= i < |rows| => rows[i].to)
  }

  /** The read and discovery predicate: what the caller's exact live row is to this assignment. */
  function Participant(l: Ledger, actor: Member, a: Id): Option<Part>
    requires a in l.assignments
  {
    if actor.agent.None? then None
    else
      var tuple := Seat(actor.agent.value, actor.membership);
      var owner := EffectiveOwner(l, a);
      if !IsLive(l, tuple) then None
      else if owner.tuple == tuple then Some(CurrentOwner)
      else if tuple in Lineage(l.assignments[a].owner, SortBy(AcceptsOf(l.accepts, a), AcceptRevision)) then Some(PriorOwner)
      else if tuple in l.assignments[a].seats then Some(AttachedSeat)
      else if l.assignments[a].open && exists o <- l.offers :: o.asg == a && o.to == tuple && o.revision == owner.revision
      then Some(OfferNominee)
      else None
  }
}
