/** Authority resolution shared by the desk commands. */
module DeskCommand {
  import opened Options
  import opened Streams
  import opened DeskLedger
  import opened DeskRules

  datatype Gate = Denied(code: Code) | Granted(tuple: Seat)

  /** The actor's own live membership, and the lead role where a command needs it. */
  function ActorGate(l: Ledger, actor: Id, lead: bool): (g: Gate)
    ensures g.Granted? ==> IsLive(l, g.tuple) && g.tuple.agent == actor && (lead ==> IsLead(l, g.tuple))
  {
    var m := LiveMember(l.members, actor);
    if m.None? then Denied(AuthorityRequired)
    else if lead && !m.value.role.Lead? then Denied(AuthorityRequired)
    else Granted(Seat(actor, m.value.membership))
  }

  /** Registered, then owned under both agent and membership, then open. */
  function OwnerGate(l: Ledger, actor: Id, lead: bool, a: Id, mismatch: Code, closed: Code): (g: Gate)
    ensures g.Granted? ==> Owns(l, a, g.tuple) && g.tuple.agent == actor && (lead ==> IsLead(l, g.tuple))
  {
    var gate := ActorGate(l, actor, lead);
    if gate.Denied? then gate
    else if a !in l.assignments then Denied(AuthorityRequired)
    else if EffectiveOwner(l, a).tuple != gate.tuple then Denied(mismatch)
    else if !l.assignments[a].open then Denied(closed)
    else gate
  }
}
