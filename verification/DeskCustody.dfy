/** Custody over whole runs: lineage, authorship by the owner of the moment, and dead offers. */
module DeskCustody {
  import opened Options
  import opened Streams
  import opened DeskLedger
  import opened DeskRules
  import opened DeskOwnership
  import opened DeskStore
  import opened DeskInvariants
  import opened DeskHistory

  lemma LineageIs(registered: Seat, rows: seq<Accept>, n: nat)
    requires n <= |rows|
    ensures Lineage(registered, rows)[n] == Tuple(registered, rows, n)
  {
  }

  lemma NumberedAccept(rows: seq<Accept>, i: nat)
    requires Numbered(rows, AcceptRevision) && i < |rows|
    ensures rows[i].revision == i + 1
  {
    assert AcceptRevision(rows[i]) == i + 1;
  }

  /** In every reachable ledger an assignment's successions are numbered 1..n, each
      one moves custody away from the tuple its predecessor installed, and the
      effective owner is what the last of them installed. */
  lemma CustodyLineage(d: Desk, acts: seq<Action>, l: Ledger, a: Id)
    requires Injective(d) && Run(d, EMPTY, acts) == Some(l) && a in l.assignments
    ensures var rows, registered := AcceptsOf(l.accepts, a), l.assignments[a].owner;
            && (forall i :: 0 <= i < |rows| ==> rows[i].revision == i + 1 && rows[i].from == Lineage(registered, rows)[i])
            && EffectiveOwner(l, a) == Owner(Lineage(registered, rows)[|rows|], |rows|)
  {
    hide Injective, Inv, TableInv, Ordered, Run, Lineage, Numbered, EffectiveOwner;
    ReachableInv(d, acts);
    InvMeans(d, l);
    TablesMean(d, l);
    var rows, registered := AcceptsOf(l.accepts, a), l.assignments[a].owner;
    assert Numbered(rows, AcceptRevision) by { AcceptsAreNumbered(l, a); }
    OwnerIsLatest(l, a);
    LineageIs(registered, rows, |rows|);
    forall i | 0 <= i < |rows|
      ensures rows[i].revision == i + 1 && rows[i].from == Lineage(registered, rows)[i]
    {
      NumberedAccept(rows, i);
      LineageIs(registered, rows, i);
    }
  }

  lemma AcceptsAreNumbered(l: Ledger, a: Id)
    requires Ordered(l)
    ensures Numbered(AcceptsOf(l.accepts, a), AcceptRevision)
  {
  }

  /** The write was made by the tuple that held custody of its open assignment. */
  ghost predicate ByOwner(l: Ledger, w: Write) {
    match w
    case AddOffer(row) => Owns(l, row.asg, row.from) && IsLead(l, row.from)
    case AddBrief(row) => Owns(l, row.entry.asg, row.entry.actor)
    case AddDecision(row) => Owns(l, row.entry.asg, row.entry.actor)
    case AddDefinition(row) => Owns(l, row.asg, row.owner) && IsLead(l, row.owner)
    case AddRun(row) => Owns(l, row.asg, row.actor) && IsLead(l, row.actor)
    case AddRollout(row, _) => Owns(l, row.asg, row.owner) && IsLead(l, row.owner)
    case AddTransition(row) =>
      && OpenAssignment(l, row.asg)
      && var owner := EffectiveOwner(l, row.asg).tuple;
         owner.agent == row.actor && Owns(l, row.asg, owner) && IsLead(l, owner)
    case _ => true
  }

  lemma LegalWritesAreOwned(d: Desk, l: Ledger, w: Write)
    requires Legal(d, l, w)
    ensures ByOwner(l, w)
  {
    hide Owns, EffectiveOwner, HandbackLegal, ObserveLegal, AcceptLegal, GatesPassed;
    if w.AddTransition? { MoverOwns(d, l, w.transition); }
  }

  lemma MoverOwns(d: Desk, l: Ledger, row: Transition)
    requires TransitionLegal(d, l, row)
    ensures OpenAssignment(l, row.asg) && EffectiveOwner(l, row.asg).tuple.agent == row.actor
    ensures Owns(l, row.asg, EffectiveOwner(l, row.asg).tuple) && IsLead(l, EffectiveOwner(l, row.asg).tuple)
  {
    hide GatesPassed, EffectiveOwner, RolloutsOf, TransitionsOf;
  }

  lemma CommittedIsLegal(d: Desk, acts: seq<Action>, i: nat, v: Write)
    requires Injective(d) && CommittedAt(d, acts, i, v)
    ensures Legal(d, Run(d, EMPTY, acts[..i]).value, v)
  {
    hide Injective, Inv, Decide, Legal;
    var w := Run(d, EMPTY, acts[..i]).value;
    ReachableInv(d, acts[..i]);
    InvMeans(d, w);
    TablesMean(d, w);
    DecisionsAreLegal(d, w, acts[i].command);
  }

  /** Every owner-authored row of every reachable ledger was appended at a step
      whose ledger had its author as the live effective owner of the then open assignment. */
  lemma RowsAreOwnerAuthored(d: Desk, acts: seq<Action>, l: Ledger, w: Write)
    requires Injective(d) && Run(d, EMPTY, acts) == Some(l) && Holds(l, w)
    ensures exists i: nat, v :: CommittedAt(d, acts, i, v) && SameRow(w, v) && ByOwner(Run(d, EMPTY, acts[..i]).value, w)
  {
    var i, v := RowsAreCommitted(d, acts, w);
    CommittedIsLegal(d, acts, i, v);
    LegalWritesAreOwned(d, Run(d, EMPTY, acts[..i]).value, v);
  }

  lemma AcceptsGrow(rows: seq<Accept>, more: seq<Accept>, a: Id)
    requires rows <= more
    ensures AcceptsOf(rows, a) <= AcceptsOf(more, a)
  {
    FilterPrefix(rows, more, (r: Accept) => r.asg == a);
  }

  /** Offer ids are not shared. */
  lemma OneOfferPerId(d: Desk, l: Ledger, o: Offer, p: Offer)
    requires Injective(d) && RequestInv(d, l) && o in l.offers && p in l.offers && o.offerId == p.offerId
    ensures o == p
  {
    hide Injective;
    ThreeParts(d, OfferId, [o.from.agent, o.asg, o.requestId], [p.from.agent, p.asg, p.requestId]);
    assert OfferKey(o) == OfferKey(p);
  }

  /** An accept takes its revision from the one offer it names. */
  lemma AcceptFollowsOffer(d: Desk, acts: seq<Action>, l: Ledger, r: Accept, o: Offer)
    requires Injective(d) && Run(d, EMPTY, acts) == Some(l) && r in l.accepts && o in l.offers && r.offerId == o.offerId
    ensures r.asg == o.asg && r.revision == o.revision + 1 && r.from == o.from && r.to == o.to
  {
    hide Injective, Inv, Run, Grows, RequestInv, CommittedAt, AcceptLegal;
    var w, p := OfferOfAccept(d, acts, r);
    assert p in l.offers;
    ReachableInv(d, acts);
    InvMeans(d, l);
    OneOfferPerId(d, l, o, p);
  }

  /** The offer that was found when the accept was committed, still in place. */
  lemma OfferOfAccept(d: Desk, acts: seq<Action>, r: Accept) returns (w: Ledger, p: Offer)
    requires Injective(d) && Run(d, EMPTY, acts).Some? && r in Run(d, EMPTY, acts).value.accepts
    ensures p in Run(d, EMPTY, acts).value.offers
    ensures p.offerId == r.offerId && p.asg == r.asg && p.from == r.from && p.to == r.to && p.revision + 1 == r.revision
  {
    hide Injective, Inv, Next, Legal, AcceptLegal, Run, Holds, SameRow;
    assert Holds(Run(d, EMPTY, acts).value, AddAccept(r)) by { HeldAccept(Run(d, EMPTY, acts).value, r); }
    var i, v := RowsAreCommitted(d, acts, AddAccept(r));
    SameAccept(r, v);
    w := Run(d, EMPTY, acts[..i]).value;
    CommittedIsLegal(d, acts, i, v);
    LegalAccept(d, w, r);
    p := OfferOf(d, w, r);
    assert acts == acts[..i] + acts[i..];
    RunSplits(d, EMPTY, acts[..i], acts[i..]);
    ReachableInv(d, acts[..i]);
    HistoryIsKept(d, w, acts[i..]);
  }

  lemma HeldAccept(l: Ledger, r: Accept)
    requires r in l.accepts
    ensures Holds(l, AddAccept(r))
  {
  }

  lemma SameAccept(r: Accept, v: Write)
    requires SameRow(AddAccept(r), v)
    ensures v == AddAccept(r)
  {
  }

  lemma LegalAccept(d: Desk, l: Ledger, r: Accept)
    requires Legal(d, l, AddAccept(r))
    ensures AcceptLegal(d, l, r)
  {
  }

  lemma OfferOf(d: Desk, l: Ledger, r: Accept) returns (o: Offer)
    requires AcceptLegal(d, l, r)
    ensures o in l.offers && o.offerId == r.offerId && o.asg == r.asg && o.from == r.from && o.to == r.to && o.revision + 1 == r.revision
  {
    o :| o in l.offers && o.offerId == r.offerId && o.asg == r.asg && o.from == r.from && o.to == r.to && o.revision + 1 == r.revision;
  }

  /** In a later ledger custody has only moved on. */
  lemma LaterCustody(d: Desk, l: Ledger, more: seq<Action>, l': Ledger, a: Id)
    requires Injective(d) && Inv(d, l) && Run(d, l, more) == Some(l')
    ensures TableInv(d, l) && Inv(d, l') && Grows(l, l')
    ensures AcceptsOf(l.accepts, a) <= AcceptsOf(l'.accepts, a)
    ensures a in l.assignments ==>
              && a in l'.assignments && l'.assignments[a].owner == l.assignments[a].owner
              && EffectiveOwner(l, a).revision == |AcceptsOf(l.accepts, a)|
              && EffectiveOwner(l', a).revision == |AcceptsOf(l'.accepts, a)|
  {
    HistoryIsKept(d, l, more);
    AcceptsGrow(l.accepts, l'.accepts, a);
    hide Injective, Run, AcceptsOf;
    if a in l.assignments {
      assert AssignmentKept(l, l', a);
      OwnerIsLatest(l, a);
      OwnerIsLatest(l', a);
    }
  }

  lemma NamedOffer(d: Desk, l: Ledger, o: Offer, a: Id)
    requires Injective(d) && RequestInv(d, l) && o in l.offers
    ensures OfferNamed(l.offers, o.offerId, a).None? || OfferNamed(l.offers, o.offerId, a).value == o
  {
    var found := OfferNamed(l.offers, o.offerId, a);
    if found.Some? { OneOfferPerId(d, l, o, found.value); }
  }

  /** Once custody has moved past the revision an offer pins, in no later ledger can
      any caller accept it, and no acceptance of it is ever recorded that was not already. */
  lemma StaleOfferIsDead(d: Desk, acts: seq<Action>, l: Ledger, o: Offer, more: seq<Action>, l': Ledger, c: Command)
    requires Injective(d) && Run(d, EMPTY, acts) == Some(l) && o in l.offers
    requires o.asg in l.assignments && o.revision < EffectiveOwner(l, o.asg).revision
    requires Run(d, l, more) == Some(l')
    requires c.AcceptCustody? && c.offerId == o.offerId
    ensures Decide(d, l', c).Refused?
    ensures forall r <- l'.accepts :: r.offerId == o.offerId ==> r in l.accepts
  {
    hide Injective, Inv, Run, TableInv, RequestInv, EffectiveOwner, AcceptsOf, OfferNamed;
    ReachableInv(d, acts);
    RunSplits(d, EMPTY, acts, more);
    LaterCustody(d, l, more, l', o.asg);
    InvMeans(d, l');
    NamedOffer(d, l', o, c.asg);
    assert OfferNamed(l'.offers, o.offerId, c.asg).Some? ==> o.asg == c.asg by { NamedAsg(l'.offers, o.offerId, c.asg); }
    forall r <- l'.accepts | r.offerId == o.offerId
      ensures r in l.accepts
    {
      AcceptFollowsOffer(d, acts + more, l', r, o);
      AcceptIsOld(d, l, l', r);
    }
  }

  lemma NamedAsg(offers: seq<Offer>, id: Id, a: Id)
    ensures OfferNamed(offers, id, a).Some? ==> OfferNamed(offers, id, a).value.asg == a
  {
  }

  /** Accepts are found at the place their revision names. */
  lemma AcceptIsOld(d: Desk, l: Ledger, l': Ledger, r: Accept)
    requires TableInv(d, l') && r in l'.accepts && AcceptsOf(l.accepts, r.asg) <= AcceptsOf(l'.accepts, r.asg)
    requires 1 <= r.revision <= |AcceptsOf(l.accepts, r.asg)|
    ensures r in l.accepts
  {
    var rows := AcceptsOf(l'.accepts, r.asg);
    FilterMember(l'.accepts, (x: Accept) => x.asg == r.asg);
    assert Numbered(rows, AcceptRevision);
    var i :| 0 <= i < |rows| && rows[i] == r;
    assert AcceptRevision(rows[i]) == i + 1;
    FilterMember(l.accepts, (x: Accept) => x.asg == r.asg);
    assert AcceptsOf(l.accepts, r.asg)[i] == r;
  }

  predicate Usable(l: Ledger, o: Offer) {
    OpenAssignment(l, o.asg) && o.revision == EffectiveOwner(l, o.asg).revision
  }

  /** A usable offer is not accepted yet: acceptance itself would have moved custody on. */
  lemma UsableIsUnaccepted(d: Desk, acts: seq<Action>, l: Ledger, o: Offer)
    requires Injective(d) && Run(d, EMPTY, acts) == Some(l) && o in l.offers && Usable(l, o)
    ensures forall r <- l.accepts :: r.offerId != o.offerId
  {
    hide Injective, Inv, TableInv, Run, EffectiveOwner, AcceptsOf, Ordered;
    ReachableInv(d, acts);
    InvMeans(d, l);
    TablesMean(d, l);
    AcceptsAreNumbered(l, o.asg);
    OwnerIsLatest(l, o.asg);
    forall r <- l.accepts | r.offerId == o.offerId
      ensures false
    {
      AcceptFollowsOffer(d, acts, l, r, o);
      AcceptPlace(l, r);
    }
  }

  lemma AcceptPlace(l: Ledger, r: Accept)
    requires r in l.accepts && Numbered(AcceptsOf(l.accepts, r.asg), AcceptRevision)
    ensures 1 <= r.revision <= |AcceptsOf(l.accepts, r.asg)|
  {
    var rows := AcceptsOf(l.accepts, r.asg);
    FilterMember(l.accepts, (x: Accept) => x.asg == r.asg);
    var i :| 0 <= i < |rows| && rows[i] == r;
    assert AcceptRevision(rows[i]) == i + 1;
  }

  /** The ledger with one offer struck from it. */
  function WithoutOffer(l: Ledger, o: Offer): Ledger {
    l.(offers := Filter(l.offers, (p: Offer) => p != o))
  }

  /** An offer that is not usable is nothing to anybody. */
  lemma UnusableConfersNothing(l: Ledger, o: Offer, actor: Member, a: Id)
    requires a in l.assignments && !Usable(l, o)
    ensures Participant(WithoutOffer(l, o), actor, a) == Participant(l, actor, a)
  {
    FilterMember(l.offers, (p: Offer) => p != o);
    assert EffectiveOwner(WithoutOffer(l, o), a) == EffectiveOwner(l, a);
    hide EffectiveOwner, Lineage, SortBy;
  }

  /** Once custody has moved past an offer it is unusable in every later ledger, and
      to nobody does it confer any part there: each caller is to each assignment what
      it would be had the offer never been made. */
  lemma StaleOffersConferNothing(d: Desk, acts: seq<Action>, l: Ledger, o: Offer, more: seq<Action>, l': Ledger, actor: Member, a: Id)
    requires Injective(d) && Run(d, EMPTY, acts) == Some(l) && o in l.offers
    requires o.asg in l.assignments && o.revision < EffectiveOwner(l, o.asg).revision
    requires Run(d, l, more) == Some(l') && a in l'.assignments
    ensures o in l'.offers && !Usable(l', o)
    ensures Participant(WithoutOffer(l', o), actor, a) == Participant(l', actor, a)
  {
    hide Injective, Inv, Run, TableInv, EffectiveOwner, AcceptsOf, Participant;
    ReachableInv(d, acts);
    LaterCustody(d, l, more, l', o.asg);
    UnusableConfersNothing(l', o, actor, a);
  }

  /** The step that made an offer, and the custody it was made under. */
  lemma OfferWasMade(d: Desk, acts: seq<Action>, l: Ledger, o: Offer) returns (w: Ledger, more: seq<Action>)
    requires Injective(d) && Run(d, EMPTY, acts) == Some(l) && o in l.offers
    ensures Inv(d, w) && Run(d, w, more) == Some(l)
    ensures Owns(w, o.asg, o.from) && o.revision == EffectiveOwner(w, o.asg).revision
  {
    hide Injective, Inv, Next, Legal, Run;
    var i, v := RowsAreCommitted(d, acts, AddOffer(o));
    w, more := Run(d, EMPTY, acts[..i]).value, acts[i..];
    CommittedIsLegal(d, acts, i, v);
    LegalOffer(d, w, o);
    assert acts == acts[..i] + more;
    RunSplits(d, EMPTY, acts[..i], more);
    ReachableInv(d, acts[..i]);
  }

  lemma LegalOffer(d: Desk, l: Ledger, o: Offer)
    requires Legal(d, l, AddOffer(o))
    ensures Owns(l, o.asg, o.from) && o.revision == EffectiveOwner(l, o.asg).revision
  {
    hide Owns, EffectiveOwner;
  }

  /** The offer that makes a caller a nominee. */
  lemma NomineeHasOffer(l: Ledger, actor: Member, a: Id) returns (o: Offer)
    requires a in l.assignments && Participant(l, actor, a) == Some(OfferNominee)
    ensures actor.agent.Some? && o in l.offers && o.asg == a && o.to == Seat(actor.agent.value, actor.membership) && Usable(l, o)
  {
    hide EffectiveOwner, Lineage, SortBy;
    var tuple := Seat(actor.agent.value, actor.membership);
    o :| o in l.offers && o.asg == a && o.to == tuple && o.revision == EffectiveOwner(l, a).revision;
  }

  /** Nominee access exists only while the nomination stands: the offer behind it was
      made by the tuple that still holds custody, under the custody still in force,
      and nobody has accepted it. */
  lemma NomineesHoldTheOwnersOffer(d: Desk, acts: seq<Action>, l: Ledger, actor: Member, a: Id) returns (o: Offer)
    requires Injective(d) && Run(d, EMPTY, acts) == Some(l) && a in l.assignments && Participant(l, actor, a) == Some(OfferNominee)
    ensures actor.agent.Some? && o in l.offers && o.asg == a && o.to == Seat(actor.agent.value, actor.membership)
    ensures o.from == EffectiveOwner(l, a).tuple && o.revision == EffectiveOwner(l, a).revision
    ensures forall r <- l.accepts :: r.offerId != o.offerId
  {
    hide Injective, Inv, Run, TableInv, EffectiveOwner, AcceptsOf, Participant, Grows;
    o := NomineeHasOffer(l, actor, a);
    UsableIsUnaccepted(d, acts, l, o);
    var w, more := OfferWasMade(d, acts, l, o);
    LaterCustody(d, w, more, l, a);
    SameCustody(d, w, l, a);
  }

  /** As many accepts at both ends mean the same owner. */
  lemma SameCustody(d: Desk, l: Ledger, l': Ledger, a: Id)
    requires TableInv(d, l) && Inv(d, l') && a in l.assignments && a in l'.assignments
    requires l'.assignments[a].owner == l.assignments[a].owner
    requires AcceptsOf(l.accepts, a) <= AcceptsOf(l'.accepts, a) && |AcceptsOf(l.accepts, a)| == |AcceptsOf(l'.accepts, a)|
    ensures EffectiveOwner(l', a) == EffectiveOwner(l, a)
  {
    hide Inv, TableInv, Ordered, AcceptsOf, EffectiveOwner;
    InvMeans(d, l');
    TablesMean(d, l);
    TablesMean(d, l');
    AcceptsAreNumbered(l, a);
    AcceptsAreNumbered(l', a);
    OwnerIsLatest(l, a);
    OwnerIsLatest(l', a);
  }
}
