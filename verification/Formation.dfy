/** Seat formation: the `execute` body of a seat-create operation.

    `Execute` is the body as a step machine over arbitrary host, planner and
    guard answers.  It runs inside the operation protocol, so every phase is a
    durable write that can tear, and a crash can fall between any two steps. */
module Formation {
  import opened Operation
  import opened Options

  /** An external effect and the identity it is issued under. */
  datatype Effect = OpenWorkspace | CreateAgent(pin: nat) | SendPrompt(agent: nat)

  /** What the body observed, in order. */
  datatype Event = Planned(pin: nat) | Verified(agent: nat, ok: bool) | Did(effect: Effect)

  /** Where the body is.  `pin` is the digest of the first plan, `agent` the id
      returned by the create. */
  datatype Pc =
    | Begin
    | Placing
    | OpenReady
    | OpenReturned(workspace: nat)
    | TargetKnown(workspace: nat)
    | Sourced
    | Selecting
    | Planning
    | PlanReady(pin: nat)
    | PinRecorded(pin: nat)
    | CreatePlanned(pin: nat)
    | CreateReady(pin: nat)
    | CreateDone(pin: nat, agent: nat)
    | SeatUnchecked(pin: nat, agent: nat)
    | SeatChecked(pin: nat, agent: nat, ok: bool)
    | SeatVerified(pin: nat, agent: nat)
    | SendPlanned(pin: nat, agent: nat)
    | AwaitMember(pin: nat, agent: nat)
    | MemberRead(pin: nat, agent: nat, registered: bool)
    | MemberKnown(pin: nat, agent: nat, registered: bool)
    | Deliver(pin: nat, agent: nat)
    | SendReady(pin: nat, agent: nat)
    | Ended

  /** One answer of the outside world to the current step: `ok` is false when a
      guard refuses or a read, verification or call fails; `plan` is the pin of
      a fresh plan, None when planning is refused or not reached; `id` names a workspace or an
      agent; `more`, `waited` and `registered` drive selection and membership. */
  datatype Answer = Answer(ok: bool, plan: Option<nat>, id: nat, more: bool, waited: bool, registered: bool)

  datatype Step =
    | Go(next: Pc)
    | See(event: Event, next: Pc)
    | Write(phase: Phase, next: Pc)
    | Perform(effect: Effect, next: Pc)

  predicate Placed(r: Request) {
    !r.placement.Unplaced?
  }

  predicate NeedsMembership(r: Request) {
    Placed(r) || r.automaticPeer || r.peerSelection
  }

  /** A plan made again: whatever the planner gave is observed, and the body goes on
      only with the plan it is pinned to. */
  function PlanAgain(a: Answer, pin: nat, next: Pc): Step {
    if a.plan.None? then Go(Ended)
    else See(Planned(a.plan.value), if a.ok && a.plan.value == pin then next else Ended)
  }

  function Execute(r: Request, pc: Pc, a: Answer): Step {
    match pc
    case Begin =>
      if !a.ok || r.placement.Worktree? then Go(Ended)
      else if Placed(r) then Write(PlacementPlanned, Placing)
      else Go(Sourced)
    case Placing =>
      if !a.ok then Go(Ended)
      else if r.placement == Existing(None) then Write(WorkspaceOpenIssued, OpenReady)
      else Go(TargetKnown(if r.placement.Existing? then r.placement.workspace.value else a.id))
    case OpenReady => Perform(OpenWorkspace, if a.ok then OpenReturned(a.id) else Ended)
    case OpenReturned(ws) => Write(WorkspaceOpenReturned(ws), TargetKnown(ws))
    case TargetKnown(ws) => if a.ok then Write(TargetObserved(ws), Sourced) else Go(Ended)
    case Sourced =>
      if !a.ok then Go(Ended) else Go(if r.automaticPeer then Selecting else Planning)
    case Selecting =>
      if a.more then Write(RouteNote(a.id), Selecting)
      else if !a.ok then Go(Ended)
      else Write(RouteSelected, Planning)
    case Planning =>
      if a.plan.None? then Go(Ended) else See(Planned(a.plan.value), if a.ok then PlanReady(a.plan.value) else Ended)
    case PlanReady(pin) => Write(Prepared(pin), PinRecorded(pin))
    case PinRecorded(pin) => PlanAgain(a, pin, CreatePlanned(pin))
    case CreatePlanned(pin) => if a.ok then Write(CreateIssued(pin), CreateReady(pin)) else Go(Ended)
    case CreateReady(pin) => Perform(CreateAgent(pin), if a.ok then CreateDone(pin, a.id) else Ended)
    case CreateDone(pin, agent) => Write(CreateReturned(agent), SeatUnchecked(pin, agent))
    case SeatUnchecked(pin, agent) => See(Verified(agent, a.ok), SeatChecked(pin, agent, a.ok))
    case SeatChecked(pin, agent, ok) =>
      Write(CreateObserved(agent, ok), if ok then SeatVerified(pin, agent) else Ended)
    case SeatVerified(pin, agent) => PlanAgain(a, pin, SendPlanned(pin, agent))
    case SendPlanned(pin, agent) =>
      if !a.ok then Go(Ended) else Go(if NeedsMembership(r) then AwaitMember(pin, agent) else Deliver(pin, agent))
    case AwaitMember(pin, agent) =>
      if !a.waited || !a.more then Go(MemberRead(pin, agent, a.registered && !a.waited))
      else PlanAgain(a, pin, MemberRead(pin, agent, a.registered))
    case MemberRead(pin, agent, registered) =>
      if Placed(r) then Write(MembershipObserved(agent, registered), MemberKnown(pin, agent, registered))
      else Go(MemberKnown(pin, agent, registered))
    case MemberKnown(pin, agent, registered) => Go(if registered then Deliver(pin, agent) else Ended)
    case Deliver(pin, agent) =>
      if r.delivery.ByCaller? then Write(DeliveryHandedOff(agent), Ended)
      else Write(SendIssued(agent), SendReady(pin, agent))
    case SendReady(_, agent) => Perform(SendPrompt(agent), Ended)
    case Ended => Go(Ended)
  }

  /** One executing body.  `pending` is the continuation of the phase being written. */
  datatype Seat = Seat(pc: Pc, pending: Option<Pc>, events: seq<Event>)

  /** The operation protocol plus the bodies it runs; `performed` is the history
      of external effects, each with its native identity. */
  datatype State = State(op: World, seats: map<nat, Seat>, performed: seq<(nat, Effect)>)

  datatype Action =
    | Protocol(step: Operation.Action)
    | Body(c: nat, answer: Answer)
    | FailPhase(c: nat, how: Failure)

  /** How a phase write throws: before its file, in the middle of it, or after it was whole. */
  datatype Failure = Absent | Partial | Unsynced

  /** Steps of the protocol that are not moves of a running body. */
  predicate Outside(step: Operation.Action) {
    !(step.BeginPhase? || step.SealPhase? || step.LosePhase? || step.TearPhase? || step.SkipPhase? || step.BeginResult?)
  }

  predicate Executes(w: State, c: nat) {
    Running(w.op, c) && c in w.seats && w.op.callers[c].stage.Executing?
  }

  ghost predicate CanWrite(r: Request, pc: Pc) {
    exists answer :: Execute(r, pc, answer).Write?
  }

  ghost predicate Enabled(w: State, a: Action) {
    match a
    case Protocol(step) => Operation.Enabled(w.op, step)
      && (Outside(step) || (step.SealPhase? && step.c in w.seats && w.seats[step.c].pending.Some?)
          || (step.BeginResult? && step.c in w.seats && w.seats[step.c].pc.Ended?))
    case Body(c, answer) => Executes(w, c) && !w.seats[c].pc.Ended?
      && var step := Execute(w.op.callers[c].request, w.seats[c].pc, answer);
         step.Write? ==> Operation.Enabled(w.op, BeginPhase(c, step.phase))
    case FailPhase(c, how) =>
      && c in w.seats
      && match how
         case Absent => Executes(w, c) && CanWrite(w.op.callers[c].request, w.seats[c].pc)
         case Partial => Operation.Enabled(w.op, TearPhase(c))
         case Unsynced => Operation.Enabled(w.op, LosePhase(c))
  }

  /** The seat after a move of its body. */
  function AfterBody(seat: Seat, step: Step): Seat {
    match step
    case Go(next) => seat.(pc := next)
    case See(event, next) => seat.(pc := next, events := seat.events + [event])
    case Write(phase, next) => seat.(pending := Some(next))
    case Perform(effect, next) => seat.(pc := next, events := seat.events + [Did(effect)])
  }

  function WithSeat(w: State, c: nat, seat: Seat): State {
    w.(seats := w.seats[c := seat])
  }

  /** The protocol step inside an action, if it has one. */
  ghost function Underlying(w: State, a: Action): Option<Operation.Action>
    requires Enabled(w, a)
  {
    match a
    case Protocol(step) => Some(step)
    case Body(c, answer) =>
      var step := Execute(w.op.callers[c].request, w.seats[c].pc, answer);
      if step.Write? then Some(BeginPhase(c, step.phase)) else None
    case FailPhase(c, Absent) => if Operation.Enabled(w.op, SkipPhase(c)) then Some(SkipPhase(c)) else None
    case FailPhase(c, Partial) => Some(TearPhase(c))
    case FailPhase(c, Unsynced) => Some(LosePhase(c))
  }

  ghost function NextOp(w: State, a: Action): World
    requires Enabled(w, a)
  {
    match Underlying(w, a)
    case None => w.op
    case Some(step) => Operation.Next(w.op, step)
  }

  ghost function Next(w: State, a: Action): State
    requires Enabled(w, a)
  {
    var w' := w.(op := NextOp(w, a));
    match a
    case Protocol(step) =>
      if step.SealIntent? then WithSeat(w', step.c, Seat(Begin, None, []))
      else if step.SealPhase? then
        WithSeat(w', step.c, w.seats[step.c].(pc := w.seats[step.c].pending.value, pending := None))
      else w'
    case Body(c, answer) =>
      var seat := w.seats[c];
      var step := Execute(w.op.callers[c].request, seat.pc, answer);
      var w'' := WithSeat(w', c, AfterBody(seat, step));
      if step.Perform? then w''.(performed := w.performed + [(KeyOf(w.op, c), step.effect)]) else w''
    case FailPhase(c, _) => WithSeat(w', c, w.seats[c].(pc := Ended, pending := None))
  }

  ghost function Run(legacy: Files, acts: seq<Action>): Option<State> {
    if acts == [] then Some(State(World(legacy, map[], map[], []), map[], []))
    else
      var last := acts[|acts| - 1];
      match Run(legacy, acts[..|acts| - 1])
      case None => None
      case Some(w) => if Enabled(w, last) then Some(Next(w, last)) else None
  }

  /** Every action is a protocol step that is possible, or none. */
  lemma NextIsStep(w: State, a: Action)
    requires Enabled(w, a)
    ensures match Underlying(w, a)
            case None => Next(w, a).op == w.op
            case Some(step) => Operation.Enabled(w.op, step) && Next(w, a).op == Operation.Next(w.op, step)
  {
    hide Execute, CanWrite, Operation.Next, Operation.Enabled;
  }

  /** Every run of formation is a run of the operation protocol, so everything
      proved of the protocol holds here. */
  lemma {:induction false} ProtocolRun(legacy: Files, acts: seq<Action>) returns (steps: seq<Operation.Action>)
    requires Run(legacy, acts).Some?
    ensures Operation.Run(legacy, steps) == Some(Run(legacy, acts).value.op)
    decreases |acts|
  {
    if acts == [] {
      steps := [];
    } else {
      var w := Run(legacy, acts[..|acts| - 1]).value;
      var before := ProtocolRun(legacy, acts[..|acts| - 1]);
      hide Next, Enabled, Underlying, Operation.Next, Operation.Enabled;
      NextIsStep(w, acts[|acts| - 1]);
      match Underlying(w, acts[|acts| - 1])
      case None => steps := before;
      case Some(step) =>
        steps := before + [step];
        assert steps[..|steps| - 1] == before;
    }
  }

  // ------------------------------------------------------------ invariants

  /** Position of a step in the body; it never goes back. */
  function Rank(pc: Pc): nat {
    match pc
    case Begin => 0 case Placing => 1 case OpenReady => 2 case OpenReturned(_) => 3
    case TargetKnown(_) => 4 case Sourced => 5 case Selecting => 6 case Planning => 7
    case PlanReady(_) => 8 case PinRecorded(_) => 9 case CreatePlanned(_) => 10 case CreateReady(_) => 11
    case CreateDone(_, _) => 12 case SeatUnchecked(_, _) => 13 case SeatChecked(_, _, _) => 14
    case SeatVerified(_, _) => 15 case SendPlanned(_, _) => 16 case AwaitMember(_, _) => 17
    case MemberRead(_, _, _) => 18 case MemberKnown(_, _, _) => 19 case Deliver(_, _) => 20
    case SendReady(_, _) => 21 case Ended => 22
  }

  /** The only step that performs an effect of this kind. */
  function RankOf(e: Effect): nat {
    match e case OpenWorkspace => 2 case CreateAgent(_) => 11 case SendPrompt(_) => 21
  }

  function IssuedPhase(e: Effect): Phase {
    match e
    case OpenWorkspace => WorkspaceOpenIssued
    case CreateAgent(pin) => CreateIssued(pin)
    case SendPrompt(agent) => SendIssued(agent)
  }

  predicate SameKind(e: Effect, f: Effect) {
    RankOf(e) == RankOf(f)
  }

  /** `events` ends with a plan equal to `pin`: no other plan was made since, of all
      those that the planner ever gave. */
  ghost predicate LatestPlanIs(events: seq<Event>, pin: nat) {
    exists j :: 0 <= j < |events| && events[j] == Planned(pin)
      && forall k :: j < k < |events| ==> !events[k].Planned?
  }

  /** The seat was verified, and the latest plan was made afterwards and equals `pin`. */
  ghost predicate Justified(events: seq<Event>, agent: nat, pin: nat) {
    exists i, j :: 0 <= i < j < |events| && events[i] == Verified(agent, true) && events[j] == Planned(pin)
      && forall k :: j < k < |events| ==> !events[k].Planned?
  }

  /** The send at `n` was justified by what came before it. */
  ghost predicate SendIsJustified(r: Request, slots: seq<Slot>, events: seq<Event>, n: nat)
    requires n < |events|
  {
    events[n].Did? && events[n].effect.SendPrompt? ==>
      && r.delivery.ByHost?
      && exists pin :: Prepared(pin) in Visible(slots) && Justified(events[..n], events[n].effect.agent, pin)
  }

  /** The create at `n` used a plan that was made twice with the same pin. */
  ghost predicate CreateIsJustified(slots: seq<Slot>, events: seq<Event>, n: nat)
    requires n < |events|
  {
    events[n].Did? && events[n].effect.CreateAgent? ==>
      Prepared(events[n].effect.pin) in Visible(slots) && LatestPlanIs(events[..n], events[n].effect.pin)
  }

  /** What the position of the body implies about its receipt and its past. */
  ghost predicate Facts(r: Request, pc: Pc, phases: seq<Phase>, events: seq<Event>) {
    match pc
    case OpenReady => WorkspaceOpenIssued in phases
    case PlanReady(pin) => LatestPlanIs(events, pin)
    case PinRecorded(pin) => Prepared(pin) in phases
    case CreatePlanned(pin) => Prepared(pin) in phases && LatestPlanIs(events, pin)
    case CreateReady(pin) => Prepared(pin) in phases && LatestPlanIs(events, pin) && CreateIssued(pin) in phases
    case CreateDone(pin, _) => Prepared(pin) in phases
    case SeatUnchecked(pin, _) => Prepared(pin) in phases
    case SeatChecked(pin, agent, ok) => Prepared(pin) in phases && (ok ==> Verified(agent, true) in events)
    case SeatVerified(pin, agent) => Prepared(pin) in phases && Verified(agent, true) in events
    case SendPlanned(pin, agent) => Prepared(pin) in phases && Justified(events, agent, pin)
    case AwaitMember(pin, agent) => Prepared(pin) in phases && Justified(events, agent, pin)
    case MemberRead(pin, agent, _) => Prepared(pin) in phases && Justified(events, agent, pin)
    case MemberKnown(pin, agent, _) => Prepared(pin) in phases && Justified(events, agent, pin)
    case Deliver(pin, agent) => Prepared(pin) in phases && Justified(events, agent, pin)
    case SendReady(pin, agent) =>
      r.delivery.ByHost? && Prepared(pin) in phases && Justified(events, agent, pin) && SendIssued(agent) in phases
    case _ => true
  }

  lemma PlanIsLatest(events: seq<Event>, pin: nat)
    ensures LatestPlanIs(events + [Planned(pin)], pin)
  {
    var es := events + [Planned(pin)];
    assert es[|events|] == Planned(pin);
  }

  lemma PlanAfterVerification(events: seq<Event>, agent: nat, pin: nat)
    requires Verified(agent, true) in events
    ensures Justified(events + [Planned(pin)], agent, pin)
  {
    var i :| 0 <= i < |events| && events[i] == Verified(agent, true);
    var es := events + [Planned(pin)];
    assert es[i] == Verified(agent, true) && es[|events|] == Planned(pin);
  }

  lemma JustifiedWasVerified(events: seq<Event>, agent: nat, pin: nat)
    requires Justified(events, agent, pin)
    ensures Verified(agent, true) in events
  {
  }

  /** One step of the body: where it goes, the facts there are established. */
  lemma StepKeepsFacts(r: Request, pc: Pc, a: Answer, phases: seq<Phase>, events: seq<Event>)
    requires Facts(r, pc, phases, events)
    ensures match Execute(r, pc, a)
            case Go(next) => Rank(pc) <= Rank(next) && Facts(r, next, phases, events)
            case See(event, next) => Rank(pc) < Rank(next) && Facts(r, next, phases, events + [event]) && !event.Did?
            case Write(phase, next) => Rank(pc) <= Rank(next) && Facts(r, next, phases + [phase], events)
            case Perform(effect, next) =>
              && Rank(pc) == RankOf(effect) < Rank(next) && IssuedPhase(effect) in phases
              && Facts(r, next, phases, events + [Did(effect)])
  {
    var step := Execute(r, pc, a);
    if step.See? && step.event.Planned? {
      PlanIsLatest(events, step.event.pin);
      match pc
      case SeatVerified(pin, agent) => PlanAfterVerification(events, agent, pin);
      case AwaitMember(pin, agent) =>
        JustifiedWasVerified(events, agent, pin);
        PlanAfterVerification(events, agent, pin);
      case _ =>
    }
    if step.See? && step.event.Verified? {
      assert (events + [step.event])[|events|] == step.event;
    }
    if step.Write? {
      assert (phases + [step.phase])[|phases|] == step.phase;
      assert forall p :: p in phases ==> p in phases + [step.phase];
    }
  }

  /** Every effect so far was announced, lies behind the current step, and was justified. */
  ghost predicate PastInv(r: Request, pc: Pc, slots: seq<Slot>, events: seq<Event>) {
    && (forall e :: Did(e) in events ==> RankOf(e) < Rank(pc) && IssuedPhase(e) in Visible(slots))
    && (forall n :: 0 <= n < |events| ==> SendIsJustified(r, slots, events, n) && CreateIsJustified(slots, events, n))
  }

  /** The state of one body, given the attempts it has recorded and the phase it is writing. */
  ghost predicate SeatFacts(r: Request, slots: seq<Slot>, writing: Option<Phase>, seat: Seat) {
    && Facts(r, seat.pc, Visible(slots), seat.events)
    && (!seat.pc.Ended? ==> |Visible(slots)| == |slots|)
    && (writing.Some? <==> seat.pending.Some?)
    && (writing.Some? ==>
          && !seat.pc.Ended? && Rank(seat.pc) <= Rank(seat.pending.value)
          && Facts(r, seat.pending.value, Visible(slots) + [writing.value], seat.events))
    && PastInv(r, seat.pc, slots, seat.events)
  }

  lemma PastLater(r: Request, pc: Pc, next: Pc, slots: seq<Slot>, more: seq<Slot>, events: seq<Event>)
    requires PastInv(r, pc, slots, events) && Rank(pc) <= Rank(next)
    requires more == slots || (exists slot :: more == slots + [slot])
    ensures PastInv(r, next, more, events)
  {
    if more != slots {
      var slot :| more == slots + [slot];
      VisibleAppend(slots, slot);
    }
    forall phase | phase in Visible(slots)
      ensures phase in Visible(more)
    {
    }
    forall n | 0 <= n < |events|
      ensures SendIsJustified(r, more, events, n) && CreateIsJustified(more, events, n)
    {
      assert SendIsJustified(r, slots, events, n) && CreateIsJustified(slots, events, n);
    }
  }

  lemma PastAppend(r: Request, pc: Pc, next: Pc, slots: seq<Slot>, events: seq<Event>, event: Event)
    requires PastInv(r, pc, slots, events) && Rank(pc) < Rank(next)
    requires Facts(r, pc, Visible(slots), events)
    requires event.Did? ==> Rank(pc) == RankOf(event.effect) && IssuedPhase(event.effect) in Visible(slots)
    requires event.Did? && event.effect.CreateAgent? ==> pc == CreateReady(event.effect.pin)
    requires event.Did? && event.effect.SendPrompt? ==> pc.SendReady? && pc.agent == event.effect.agent
    ensures PastInv(r, next, slots, events + [event])
  {
    var es := events + [event];
    forall e | Did(e) in es
      ensures RankOf(e) < Rank(next) && IssuedPhase(e) in Visible(slots)
    {
      if Did(e) != event { assert Did(e) in events; }
    }
    forall n | 0 <= n < |es|
      ensures SendIsJustified(r, slots, es, n) && CreateIsJustified(slots, es, n)
    {
      if n < |events| {
        assert es[..n] == events[..n];
        assert SendIsJustified(r, slots, events, n) && CreateIsJustified(slots, events, n);
      } else {
        assert es[..n] == events;
      }
    }
  }

  /** Only these steps perform effects, under the identity they carry. */
  lemma PerformSteps(r: Request, pc: Pc, a: Answer)
    requires Execute(r, pc, a).Perform?
    ensures var e := Execute(r, pc, a).effect;
            && (e.CreateAgent? ==> pc == CreateReady(e.pin))
            && (e.SendPrompt? ==> pc.SendReady? && pc.agent == e.agent)
  {
  }

  lemma BodyKeepsSeat(r: Request, slots: seq<Slot>, seat: Seat, a: Answer)
    requires SeatFacts(r, slots, None, seat) && !seat.pc.Ended?
    ensures var step := Execute(r, seat.pc, a);
            SeatFacts(r, slots, if step.Write? then Some(step.phase) else None, AfterBody(seat, step))
  {
    hide Visible, Facts, Execute, PastInv;
    var step := Execute(r, seat.pc, a);
    StepKeepsFacts(r, seat.pc, a, Visible(slots), seat.events);
    match step
    case Go(next) => PastLater(r, seat.pc, next, slots, slots, seat.events);
    case See(event, next) => PastAppend(r, seat.pc, next, slots, seat.events, event);
    case Write(phase, next) =>
    case Perform(effect, next) =>
      PerformSteps(r, seat.pc, a);
      PastAppend(r, seat.pc, next, slots, seat.events, Did(effect));
  }

  /** A completed phase write moves the body to its continuation. */
  lemma SealKeepsSeat(r: Request, slots: seq<Slot>, phase: Phase, seat: Seat)
    requires SeatFacts(r, slots, Some(phase), seat)
    ensures SeatFacts(r, slots + [Whole(phase)], None, seat.(pc := seat.pending.value, pending := None))
  {
    VisibleAppend(slots, Whole(phase));
    hide Visible, Facts, PastInv;
    PastLater(r, seat.pc, seat.pending.value, slots, slots + [Whole(phase)], seat.events);
  }

  /** A failed phase write ends the body: nothing further is performed. */
  lemma FailureKeepsSeat(r: Request, slots: seq<Slot>, more: seq<Slot>, writing: Option<Phase>, seat: Seat)
    requires SeatFacts(r, slots, writing, seat)
    requires more == slots || (exists slot: Slot :: !slot.Whole? && more == slots + [slot])
    ensures SeatFacts(r, more, None, seat.(pc := Ended, pending := None))
  {
    hide Visible, PastInv;
    PastLater(r, seat.pc, Ended, slots, more, seat.events);
  }

  // ------------------------------------------------------- whole-run invariant

  function SlotsOf(op: World, c: nat): seq<Slot>
    requires c in op.callers
  {
    if KeyOf(op, c) in op.records then op.records[KeyOf(op, c)].slots else []
  }

  function WritingOf(op: World, c: nat): Option<Phase>
    requires c in op.callers
  {
    if op.callers[c].stage.WritingPhase? then Some(op.callers[c].stage.phase) else None
  }

  ghost predicate SeatInv(w: State, c: nat)
    requires c in w.seats
  {
    && c in w.op.starts && c in w.op.callers
    && SeatFacts(w.op.callers[c].request, SlotsOf(w.op, c), WritingOf(w.op, c), w.seats[c])
  }

  /** An effect is remembered by the body that holds the record of its identity. */
  ghost predicate Remembered(w: State, key: nat, e: Effect) {
    && key in w.op.records && w.op.records[key].holder in w.seats
    && KeyOf'(w.op, w.op.records[key].holder) == Some(key)
    && Did(e) in w.seats[w.op.records[key].holder].events
  }

  ghost predicate EffectsInv(w: State) {
    && (forall p <- w.performed :: Remembered(w, p.0, p.1))
    && (forall i, j :: 0 <= i < j < |w.performed| && w.performed[i].0 == w.performed[j].0
          ==> !SameKind(w.performed[i].1, w.performed[j].1))
  }

  ghost predicate Inv(w: State) {
    && Operation.Inv(w.op)
    && (forall c <- w.seats :: SeatInv(w, c))
    && (forall c <- w.op.starts :: c in w.seats)
    && EffectsInv(w)
  }

  /** What a protocol step does to the attempts and the open write of one started caller. */
  lemma StepOfStarted(op: World, step: Operation.Action, c: nat)
    requires Operation.Inv(op) && Operation.Enabled(op, step) && c in op.starts
    ensures var op' := Operation.Next(op, step);
            && c in op.callers && c in op'.callers && op'.callers[c].request == op.callers[c].request
            && KeyOf(op', c) == KeyOf(op, c)
            && SlotsOf(op', c) ==
               (if step.c != c then SlotsOf(op, c)
                else if step.SealPhase? then SlotsOf(op, c) + [Whole(WritingOf(op, c).value)]
                else if step.LosePhase? then SlotsOf(op, c) + [Unacknowledged(WritingOf(op, c).value)]
                else if step.TearPhase? then SlotsOf(op, c) + [Broken]
                else if step.SkipPhase? then SlotsOf(op, c) + [Skipped]
                else SlotsOf(op, c))
            && WritingOf(op', c) ==
               (if step.c != c then WritingOf(op, c)
                else if step.BeginPhase? then Some(step.phase)
                else if step.SealPhase? || step.LosePhase? || step.TearPhase? then None
                else WritingOf(op, c))
  {
    if step.c != c && !step.Call? {
      NextFrame(op, step);
      var key := KeyOf(op, c);
      var op' := Operation.Next(op, step);
      if key !in op'.records || op'.records[key] != op.records[key] {
        OnlyHolderWrites(op, step, key);
      }
    } else if !step.Call? {
      assert CallerInv(op, c);
      assert Read(op.files, Stable(KeyOf(op, c)), IntentFile).Some? <==> KeyOf(op, c) in op.records;
    }
  }

  function Actor(a: Action): nat {
    match a case Protocol(step) => step.c case Body(c, _) => c case FailPhase(c, _) => c
  }

  /** A body begins exactly when its intent is published, with nothing attempted. */
  lemma BodyBegins(op: World, step: Operation.Action)
    requires Operation.Inv(op) && Operation.Enabled(op, step) && step.SealIntent?
    ensures var op' := Operation.Next(op, step);
            && step.c !in op.starts && step.c in op'.callers
            && SlotsOf(op', step.c) == [] && WritingOf(op', step.c) == None
  {
    assert CallerInv(op, step.c);
  }

  /** A step that is not a move of its own body leaves a seat as it is. */
  lemma NextSeat(w: State, a: Action, c: nat)
    requires Enabled(w, a) && c in w.seats
    ensures c in Next(w, a).seats && Next(w, a).op == NextOp(w, a)
    ensures c != Actor(a) ==> Next(w, a).seats[c] == w.seats[c]
    ensures !(a.Protocol? && a.step.SealIntent?) ==> w.seats[c].events <= Next(w, a).seats[c].events
  {
    hide Execute, Operation.Next, Operation.Enabled;
  }

  /** A failed phase write ends the body, and is one of the failed attempts of the protocol. */
  lemma FailureIsStep(w: State, a: Action)
    requires Enabled(w, a) && a.FailPhase?
    ensures a.c in w.seats && a.c in Next(w, a).seats && Next(w, a).seats[a.c] == w.seats[a.c].(pc := Ended, pending := None)
    ensures var under := Underlying(w, a);
            under.Some? ==> under.value.c == a.c && (under.value.SkipPhase? || under.value.TearPhase? || under.value.LosePhase?)
    ensures Underlying(w, a).None? ==> Running(w.op, a.c) && w.op.callers[a.c].stage.Executing?
    ensures var under := Underlying(w, a);
            under.Some? && under.value.SkipPhase? ==> Running(w.op, a.c) && w.op.callers[a.c].stage.Executing?
  {
    hide Execute, CanWrite, Operation.Next, Operation.Enabled;
  }

  /** A failed write of the actor's own body. */
  lemma KeepsFailing(w: State, a: Action)
    requires Inv(w) && Enabled(w, a) && a.FailPhase?
    ensures a.c in w.seats && SeatInv(Next(w, a), a.c)
  {
    FailureIsStep(w, a);
    NextIsStep(w, a);
    assert Operation.Inv(w.op) && SeatInv(w, a.c);
    hide SeatFacts, Inv, Operation.Inv, Operation.Next, SlotsOf, Enabled, Operation.Enabled, Next, Underlying;
    var under := Underlying(w, a);
    if under.Some? {
      StepOfStarted(w.op, under.value, a.c);
      StartFrame(w.op, under.value);
    }
    FailureKeepsSeat(w.op.callers[a.c].request, SlotsOf(w.op, a.c), SlotsOf(Next(w, a).op, a.c), WritingOf(w.op, a.c), w.seats[a.c]);
  }

  /** One move of the actor's own body. */
  lemma KeepsActor(w: State, a: Action)
    requires Inv(w) && Enabled(w, a) && Actor(a) in w.seats && !a.FailPhase?
    requires !(a.Protocol? && a.step.SealIntent?)
    ensures SeatInv(Next(w, a), Actor(a))
  {
    var c := Actor(a);
    assert SeatInv(w, c);
    var under := Underlying(w, a);
    if under.Some? {
      StepOfStarted(w.op, under.value, c);
      StartFrame(w.op, under.value);
    }
    hide SeatFacts, Operation.Inv, Operation.Next, SlotsOf;
    if a.Body? {
      BodyKeepsSeat(w.op.callers[c].request, SlotsOf(w.op, c), w.seats[c], a.answer);
    } else if a.step.SealPhase? {
      SealKeepsSeat(w.op.callers[c].request, SlotsOf(w.op, c), WritingOf(w.op, c).value, w.seats[c]);
    }
  }

  lemma KeepsBegun(w: State, a: Action)
    requires Inv(w) && Enabled(w, a) && a.Protocol? && a.step.SealIntent?
    ensures a.step.c in Next(w, a).seats && SeatInv(Next(w, a), a.step.c)
  {
    BodyBegins(w.op, a.step);
    StartFrame(w.op, a.step);
    hide Operation.Next, Operation.Inv, SlotsOf, WritingOf;
  }

  lemma KeepsOther(w: State, a: Action, c: nat)
    requires Inv(w) && Enabled(w, a) && c in w.seats && c != Actor(a)
    ensures c in Next(w, a).seats && SeatInv(Next(w, a), c)
  {
    hide SeatFacts, Operation.Next, Operation.Inv, SlotsOf, WritingOf;
    assert SeatInv(w, c);
    NextSeat(w, a, c);
    if Underlying(w, a).Some? {
      StepOfStarted(w.op, Underlying(w, a).value, c);
      StartFrame(w.op, Underlying(w, a).value);
    }
    hide Next;
  }

  lemma KeepsSeat(w: State, a: Action, c: nat)
    requires Inv(w) && Enabled(w, a) && c in Next(w, a).seats
    ensures SeatInv(Next(w, a), c)
  {
    hide SeatInv, Operation.Next, Operation.Inv;
    if a.Protocol? && a.step.SealIntent? && a.step.c == c {
      KeepsBegun(w, a);
    } else if c == Actor(a) && a.FailPhase? {
      KeepsFailing(w, a);
    } else if c == Actor(a) {
      KeepsActor(w, a);
    } else {
      KeepsOther(w, a, c);
    }
  }

  /** Nothing that a body observed or did is forgotten. */
  ghost predicate PastKept(w: State, w': State) {
    && (forall c <- w.seats :: c in w'.seats && forall e <- w.seats[c].events :: e in w'.seats[c].events)
    && (forall key <- w.op.records :: key in w'.op.records && w'.op.records[key].holder == w.op.records[key].holder)
    && (forall c <- w.op.callers :: KeyOf'(w'.op, c) == KeyOf'(w.op, c))
  }

  lemma NextKeepsPast(w: State, a: Action)
    requires Inv(w) && Enabled(w, a)
    ensures PastKept(w, Next(w, a))
  {
    hide Operation.Inv, Operation.Next, Operation.Enabled, SeatFacts, EffectsInv;
    var under := Underlying(w, a);
    if under.Some? {
      StartFrame(w.op, under.value);
      KeysKept(w.op, under.value);
    }
    forall c <- w.seats
      ensures c in Next(w, a).seats && forall e <- w.seats[c].events :: e in Next(w, a).seats[c].events
    {
      NextSeat(w, a, c);
      if a.Protocol? && a.step.SealIntent? {
        BodyBegins(w.op, a.step);
        assert SeatInv(w, c);
      }
    }
    hide Next;
  }

  /** Only a body at the step that performs the effect adds it to the history. */
  lemma Performs(w: State, a: Action) returns (e: Option<Effect>)
    requires Inv(w) && Enabled(w, a)
    ensures var w' := Next(w, a);
            if e.None? then w'.performed == w.performed
            else
              && a.Body? && w'.performed == w.performed + [(KeyOf(w.op, a.c), e.value)]
              && RankOf(e.value) == Rank(w.seats[a.c].pc) && Did(e.value) in w'.seats[a.c].events
  {
    e := None;
    if a.Body? {
      var seat := w.seats[a.c];
      var step := Execute(w.op.callers[a.c].request, seat.pc, a.answer);
      assert SeatInv(w, a.c);
      if step.Perform? {
        StepKeepsFacts(w.op.callers[a.c].request, seat.pc, a.answer, Visible(SlotsOf(w.op, a.c)), seat.events);
        e := Some(step.effect);
        assert Next(w, a).seats[a.c].events[|seat.events|] == Did(step.effect);
      }
      hide Execute, Operation.Inv, Operation.Next, Operation.Enabled;
    }
  }

  lemma RememberedKept(w: State, w': State, key: nat, e: Effect)
    requires PastKept(w, w') && Remembered(w, key, e)
    ensures Remembered(w', key, e)
  {
  }

  lemma KeepsEffects(w: State, a: Action)
    requires Inv(w) && Enabled(w, a)
    ensures EffectsInv(Next(w, a))
  {
    hide Next, Enabled, PastKept, Remembered, Operation.Inv, SeatInv;
    var w' := Next(w, a);
    NextKeepsPast(w, a);
    var e := Performs(w, a);
    if e.Some? {
      ActorHasSeat(w, a);
      NextSeat(w, a, a.c);
      NewEffect(w, w', a.c, e.value);
    }
    forall p <- w.performed
      ensures Remembered(w', p.0, p.1)
    {
      RememberedKept(w, w', p.0, p.1);
    }
  }

  lemma ActorHasSeat(w: State, a: Action)
    requires Enabled(w, a) && a.Body?
    ensures a.c in w.seats && a.c in w.op.callers
  {
    hide Execute;
  }

  /** The effect a body performs is remembered, and is the first of its kind for its identity. */
  lemma NewEffect(w: State, w': State, c: nat, e: Effect)
    requires Inv(w) && PastKept(w, w') && c in w.seats && c in w.op.callers && c in w'.seats
    requires RankOf(e) == Rank(w.seats[c].pc) && Did(e) in w'.seats[c].events
    ensures Remembered(w', KeyOf(w.op, c), e)
    ensures forall p <- w.performed :: p.0 == KeyOf(w.op, c) ==> !SameKind(p.1, e)
  {
    assert SeatInv(w, c);
    hide Facts, Visible;
    forall p <- w.performed | p.0 == KeyOf(w.op, c)
      ensures !SameKind(p.1, e)
    {
      assert Remembered(w, p.0, p.1) && Did(p.1) in w.seats[c].events;
    }
  }

  lemma KeysKept(op: World, step: Operation.Action)
    requires Operation.Enabled(op, step)
    ensures forall c <- op.callers :: KeyOf'(Operation.Next(op, step), c) == KeyOf'(op, c)
  {
  }

  lemma {:induction false} ReachableSeats(legacy: Files, acts: seq<Action>)
    requires OnlyLegacy(legacy) && Run(legacy, acts).Some?
    ensures Inv(Run(legacy, acts).value)
    decreases |acts|
  {
    var steps := ProtocolRun(legacy, acts);
    ReachableInv(legacy, steps);
    if acts != [] {
      var last := acts[|acts| - 1];
      ReachableSeats(legacy, acts[..|acts| - 1]);
      var w := Run(legacy, acts[..|acts| - 1]).value;
      var w' := Next(w, last);
      assert Run(legacy, acts) == Some(w');
      forall c <- w'.seats ensures SeatInv(w', c) { KeepsSeat(w, last, c); }
      KeepsEffects(w, last);
      StartsHaveSeats(w, last);
    }
  }

  lemma StartsHaveSeats(w: State, a: Action)
    requires Inv(w) && Enabled(w, a)
    ensures forall c <- Next(w, a).op.starts :: c in Next(w, a).seats
  {
    hide Execute, Operation.Inv, Operation.Next, Operation.Enabled, SeatInv, EffectsInv;
    NextKeepsPast(w, a);
    if Underlying(w, a).Some? {
      StartFrame(w.op, Underlying(w, a).value);
      if a.Protocol? && a.step.SealIntent? {
        KeepsBegun(w, a);
      }
    }
    hide Next;
  }

  // -------------------------------------------------------------- theorems

  /** Write-ahead effects, over every run with crashes, torn writes and arbitrary
      host, planner and guard answers: an identity has at most one workspace
      open, one create and one send; each has its `*-issued` phase in the part
      of the receipt that a reader sees; a create used the pin that was prepared
      and then planned again; a send happened only under host delivery, after
      the seat verified, with the latest plan made since then equal to the pin. */
  lemma WriteAheadEffects(legacy: Files, acts: seq<Action>, w: State, i: nat)
    requires OnlyLegacy(legacy) && Run(legacy, acts) == Some(w) && i < |w.performed|
    ensures var (key, e) := w.performed[i];
            && (forall j :: 0 <= j < i && w.performed[j].0 == key ==> !SameKind(w.performed[j].1, e))
            && key in w.op.records
            && var r := w.op.records[key];
               && r.holder in w.op.starts && r.holder in w.seats
               && IssuedPhase(e) in Visible(r.slots)
               && var events := w.seats[r.holder].events;
                  && exists n :: 0 <= n < |events| && events[n] == Did(e)
                       && SendIsJustified(r.request, r.slots, events, n) && CreateIsJustified(r.slots, events, n)
  {
    ReachableSeats(legacy, acts);
    var (key, e) := w.performed[i];
    assert Remembered(w, key, e);
    var r := w.op.records[key];
    assert SeatInv(w, r.holder);
    hide Operation.Inv, Visible;
    var events := w.seats[r.holder].events;
    var n :| 0 <= n < |events| && events[n] == Did(e);
    assert SendIsJustified(r.request, r.slots, events, n) && CreateIsJustified(r.slots, events, n) by {
      assert StartedRequest(w.op, r.holder);
    }
  }

  /** A started caller runs under the request recorded in its own intent. */
  ghost predicate StartedRequest(op: World, c: nat) {
    && c in op.callers && KeyOf(op, c) in op.records
    && op.records[KeyOf(op, c)].request == op.callers[c].request
  }

  // --------------------------------------------------------------- progress

  /** Every check passes, the plan is stable and the member is registered at once. */
  function Smooth(pin: nat, id: nat): Answer {
    Answer(true, Some(pin), id, false, false, true)
  }

  /** The steps that a body under these answers passes through. */
  predicate OnWay(r: Request, pc: Pc, pin: nat, id: nat) {
    match pc
    case PlanReady(p) => p == pin
    case PinRecorded(p) => p == pin
    case CreatePlanned(p) => p == pin
    case CreateReady(p) => p == pin
    case CreateDone(p, agent) => p == pin && agent == id
    case SeatUnchecked(p, agent) => p == pin && agent == id
    case SeatChecked(p, agent, ok) => p == pin && agent == id && ok
    case SeatVerified(p, agent) => p == pin && agent == id
    case SendPlanned(p, agent) => p == pin && agent == id
    case AwaitMember(p, agent) => p == pin && agent == id
    case MemberRead(p, agent, registered) => p == pin && agent == id && registered
    case MemberKnown(p, agent, registered) => p == pin && agent == id && registered
    case Deliver(p, agent) => p == pin && agent == id
    case SendReady(p, agent) => p == pin && agent == id && r.delivery.ByHost?
    case _ => true
  }

  /** As many phases as such a body can have written when it gets here. */
  function MostWritten(pc: Pc): nat {
    var n := Rank(pc);
    if n <= 2 then n else if n <= 4 then n - 1 else if n <= 6 then 4 else if n <= 8 then 5 else if n <= 10 then 6
    else if n <= 12 then 7 else if n <= 14 then 8 else if n <= 18 then 9 else if n <= 20 then 10 else 11
  }

  /** The step that carries out the delivery. */
  function Delivery(r: Request, pin: nat, id: nat): (Pc, Step) {
    if r.delivery.ByHost? then (SendReady(pin, id), Perform(SendPrompt(id), Ended))
    else (Deliver(pin, id), Write(DeliveryHandedOff(id), Ended))
  }

  lemma SmoothAdvances(r: Request, pc: Pc, pin: nat, id: nat)
    requires !r.placement.Worktree? && OnWay(r, pc, pin, id) && !pc.Ended?
    ensures var step := Execute(r, pc, Smooth(pin, id));
            && OnWay(r, step.next, pin, id) && Rank(pc) < Rank(step.next) <= Rank(Ended)
            && MostWritten(pc) + (if step.Write? then 1 else 0) <= MostWritten(step.next) <= 11
            && (step.next.Ended? ==> (pc, step) == Delivery(r, pin, id))
  {
  }

  lemma RunSnoc(legacy: Files, acts: seq<Action>, w: State, a: Action)
    requires Run(legacy, acts) == Some(w) && Enabled(w, a)
    ensures Run(legacy, acts + [a]) == Some(Next(w, a))
  {
    assert (acts + [a])[..|acts|] == acts;
  }

  /** Caller `c` executes at `pc`, with nothing but completed phases behind it. */
  ghost predicate OnTrack(w: State, c: nat, identity: Identity, r: Request, pc: Pc, phases: seq<Phase>) {
    && Executes(w, c) && w.op.callers[c].identity == identity && w.op.callers[c].request == r
    && w.seats[c].pc == pc && w.seats[c].pending == None
    && Visible(SlotsOf(w.op, c)) == phases && |SlotsOf(w.op, c)| == |phases| <= MostWritten(pc)
  }

  /** An executing caller within its budget can write a phase to the end. */
  lemma CanWritePhase(op: World, c: nat, phase: Phase)
    requires Operation.Inv(op) && Running(op, c) && op.callers[c].stage.Executing? && |SlotsOf(op, c)| < PHASE_BUDGET
    ensures Operation.Enabled(op, BeginPhase(c, phase))
    ensures var mid := Operation.Next(op, BeginPhase(c, phase));
            && Operation.Enabled(mid, SealPhase(c)) && mid.callers[c].request == op.callers[c].request
            && var end := Operation.Next(mid, SealPhase(c));
               && Running(end, c) && end.callers[c].stage.Executing? && end.callers[c].request == op.callers[c].request
               && end.callers[c].identity == op.callers[c].identity && SlotsOf(end, c) == SlotsOf(op, c) + [Whole(phase)]
  {
    assert CallerInv(op, c);
    hide Operation.Inv, Link, Read;
  }

  /** What one step adds to the phases and to the effects. */
  function Written(step: Step): seq<Phase> {
    if step.Write? then [step.phase] else []
  }

  function Performed(key: nat, step: Step): seq<(nat, Effect)> {
    if step.Perform? then [(key, step.effect)] else []
  }

  lemma MoveBegins(w: State, c: nat, a: Answer)
    requires Executes(w, c) && !w.seats[c].pc.Ended?
    requires var step := Execute(w.op.callers[c].request, w.seats[c].pc, a);
             step.Write? && Operation.Enabled(w.op, BeginPhase(c, step.phase))
    ensures var step := Execute(w.op.callers[c].request, w.seats[c].pc, a);
            && Enabled(w, Body(c, a))
            && Next(w, Body(c, a)) ==
               State(Operation.Next(w.op, BeginPhase(c, step.phase)), w.seats[c := w.seats[c].(pending := Some(step.next))], w.performed)
  {
    hide Execute, Operation.Next, Operation.Enabled;
  }

  lemma MoveWrites(w: State, c: nat, identity: Identity, r: Request, pc: Pc, phases: seq<Phase>, a: Answer)
    requires Inv(w) && OnTrack(w, c, identity, r, pc, phases) && !pc.Ended?
    requires Execute(r, pc, a).Write? && MostWritten(pc) < MostWritten(Execute(r, pc, a).next) <= PHASE_BUDGET
    ensures var body, seal := Body(c, a), Protocol(SealPhase(c));
            && Enabled(w, body) && Enabled(Next(w, body), seal)
            && var w' := Next(Next(w, body), seal);
               && OnTrack(w', c, identity, r, Execute(r, pc, a).next, phases + Written(Execute(r, pc, a)))
               && w'.performed == w.performed
  {
    var step := Execute(r, pc, a);
    assert Operation.Inv(w.op);
    hide Execute, Operation.Next, Operation.Enabled, Operation.Inv, Inv, MostWritten, Visible, CanWrite, SlotsOf;
    CanWritePhase(w.op, c, step.phase);
    MoveBegins(w, c, a);
    VisibleAppend(SlotsOf(w.op, c), Whole(step.phase));
  }

  lemma MoveActs(w: State, c: nat, identity: Identity, r: Request, pc: Pc, phases: seq<Phase>, a: Answer)
    requires OnTrack(w, c, identity, r, pc, phases) && !pc.Ended? && MostWritten(pc) <= MostWritten(Execute(r, pc, a).next)
    requires !Execute(r, pc, a).Write?
    ensures Enabled(w, Body(c, a))
    ensures var w', step := Next(w, Body(c, a)), Execute(r, pc, a);
            OnTrack(w', c, identity, r, step.next, phases) && w'.performed == w.performed + Performed(identity.native, step)
  {
    hide Execute, MostWritten, Visible, SlotsOf, Operation.Next, Operation.Enabled;
  }

  /** One move of the body, its phase written to the end. */
  lemma SmoothMove(legacy: Files, acts: seq<Action>, w: State, c: nat, identity: Identity, r: Request, pc: Pc, phases: seq<Phase>, a: Answer)
    returns (more: seq<Action>, w': State)
    requires OnlyLegacy(legacy) && Run(legacy, acts) == Some(w) && OnTrack(w, c, identity, r, pc, phases) && !pc.Ended?
    requires var step := Execute(r, pc, a);
             MostWritten(pc) + |Written(step)| <= MostWritten(step.next) <= PHASE_BUDGET
    ensures var step := Execute(r, pc, a);
            && Run(legacy, acts + more) == Some(w') && OnTrack(w', c, identity, r, step.next, phases + Written(step))
            && w'.performed == w.performed + Performed(identity.native, step)
  {
    hide Execute, MostWritten, OnTrack, Run, Next, Enabled, Inv;
    var step, body := Execute(r, pc, a), Body(c, a);
    if step.Write? {
      var seal := Protocol(SealPhase(c));
      ReachableSeats(legacy, acts);
      MoveWrites(w, c, identity, r, pc, phases, a);
      RunSnoc(legacy, acts, w, body);
      RunSnoc(legacy, acts + [body], Next(w, body), seal);
      assert acts + [body, seal] == acts + [body] + [seal];
      more, w' := [body, seal], Next(Next(w, body), seal);
      assert w'.performed == w.performed + [];
    } else {
      MoveActs(w, c, identity, r, pc, phases, a);
      RunSnoc(legacy, acts, w, body);
      more, w' := [body], Next(w, body);
      assert phases + [] == phases;
    }
  }

  /** The prompt was sent under host delivery, and otherwise handed off in the receipt. */
  ghost predicate Delivered(r: Request, key: nat, id: nat, phases: seq<Phase>, performed: seq<(nat, Effect)>) {
    if r.delivery.ByHost? then (key, SendPrompt(id)) in performed else DeliveryHandedOff(id) in phases
  }

  lemma DeliveryDelivers(r: Request, key: nat, pin: nat, id: nat, phases: seq<Phase>, performed: seq<(nat, Effect)>)
    ensures var step := Delivery(r, pin, id).1;
            Delivered(r, key, id, phases + Written(step), performed + Performed(key, step))
  {
    assert (phases + [DeliveryHandedOff(id)])[|phases|] == DeliveryHandedOff(id);
    assert (performed + [(key, SendPrompt(id))])[|performed|] == (key, SendPrompt(id));
  }

  /** From where it is, a body that nothing stands against carries its delivery out. */
  lemma {:induction false} SmoothRun(legacy: Files, acts: seq<Action>, w: State, c: nat, identity: Identity, r: Request, pc: Pc,
                                     phases: seq<Phase>, pin: nat, id: nat)
    returns (more: seq<Action>, w': State, shown: seq<Phase>)
    requires OnlyLegacy(legacy) && Run(legacy, acts) == Some(w) && OnTrack(w, c, identity, r, pc, phases)
    requires !r.placement.Worktree? && OnWay(r, pc, pin, id) && !pc.Ended?
    ensures Run(legacy, acts + more) == Some(w') && OnTrack(w', c, identity, r, Ended, shown)
    ensures Delivered(r, identity.native, id, shown, w'.performed)
    decreases Rank(Ended) - Rank(pc)
  {
    hide Execute, OnTrack, OnWay, MostWritten, Run, Rank, Delivery, Delivered, Smooth;
    SmoothAdvances(r, pc, pin, id);
    var a := Smooth(pin, id);
    var step := Execute(r, pc, a);
    more, w' := SmoothMove(legacy, acts, w, c, identity, r, pc, phases, a);
    shown := phases + Written(step);
    if step.next.Ended? {
      DeliveryDelivers(r, identity.native, pin, id, phases, w.performed);
    } else {
      var rest;
      rest, w', shown := SmoothRun(legacy, acts + more, w', c, identity, r, step.next, shown, pin, id);
      assert acts + (more + rest) == acts + more + rest;
      more := more + rest;
    }
  }

  /** A call that finds no receipt is admitted to publish its intent. */
  lemma CallIsAdmitted(legacy: Files, acts: seq<Action>, w: State, c: nat, identity: Identity, r: Request)
    returns (more: seq<Action>, w': State)
    requires Run(legacy, acts) == Some(w) && c !in w.op.callers
    requires Read(w.op.files, Stable(identity.native), IntentFile) == None && Scan(w.op.files, identity.native) == NotFound
    ensures Run(legacy, acts + more) == Some(w') && w'.op.files == w.op.files
    ensures Running(w'.op, c) && w'.op.callers[c] == Caller(identity, r, false, Publish, false)
  {
    hide Scan, Run, Read, Execute;
    var call, read, scan := Protocol(Call(c, identity, r, false)), Protocol(ReadOwn(c)), Protocol(ScanAll(c, true));
    RunSnoc(legacy, acts, w, call);
    var w1 := Next(w, call);
    RunSnoc(legacy, acts + [call], w1, read);
    var w2 := Next(w1, read);
    RunSnoc(legacy, acts + [call] + [read], w2, scan);
    more, w' := [call, read, scan], Next(w2, scan);
    assert acts + more == acts + [call] + [read] + [scan];
  }

  /** The steps of a call up to the start of its body. */
  lemma BodyStarts(legacy: Files, acts: seq<Action>, w: State, c: nat, identity: Identity, r: Request)
    returns (more: seq<Action>, w': State)
    requires OnlyLegacy(legacy) && Run(legacy, acts) == Some(w) && c !in w.op.callers
    requires Read(w.op.files, Stable(identity.native), IntentFile) == None && Scan(w.op.files, identity.native) == NotFound
    ensures Run(legacy, acts + more) == Some(w') && OnTrack(w', c, identity, r, Begin, [])
  {
    hide Scan, Run, Execute;
    var first, at := CallIsAdmitted(legacy, acts, w, c, identity, r);
    var create, publish := Protocol(CreateIntent(c)), Protocol(SealIntent(c));
    RunSnoc(legacy, acts + first, at, create);
    RunSnoc(legacy, acts + first + [create], Next(at, create), publish);
    more, w' := first + [create, publish], Next(Next(at, create), publish);
    assert acts + more == acts + first + [create] + [publish];
  }

  /** What the receipt of a body on track shows to its own caller. */
  lemma ReceiptOnTrack(legacy: Files, acts: seq<Action>, w: State, c: nat, identity: Identity, r: Request, pc: Pc, phases: seq<Phase>)
    requires OnlyLegacy(legacy) && Run(legacy, acts) == Some(w) && OnTrack(w, c, identity, r, pc, phases)
    ensures Inspect(w.op.files, Stable(identity.native), identity, Some(r), true) == Receipt(identity, true, phases, None)
    ensures identity.native in w.op.records && Visible(w.op.records[identity.native].slots) == phases
  {
    var key := identity.native;
    var steps := ProtocolRun(legacy, acts);
    ReachableInv(legacy, steps);
    assert CallerInv(w.op, c);
    ReceiptIsTruthful(legacy, steps, w.op, key, identity, Some(r), true);
    hide Operation.Inv, Operation.Run, Run, Inspect;
    assert Seen(w.op.records[key].slots) == phases;
  }

  /** A request that the body admits, from any reachable state where nothing stands
      against it, is carried to its end: the prompt is sent under host delivery, with
      its issued phase in the receipt, and handed off in the receipt otherwise. */
  lemma SmoothSeatIsDelivered(legacy: Files, acts: seq<Action>, w: State, c: nat, identity: Identity, r: Request, pin: nat, id: nat)
    returns (more: seq<Action>, w': State)
    requires OnlyLegacy(legacy) && Run(legacy, acts) == Some(w) && c !in w.op.callers
    requires Read(w.op.files, Stable(identity.native), IntentFile) == None && Scan(w.op.files, identity.native) == NotFound
    requires !r.placement.Worktree?
    ensures Run(legacy, acts + more) == Some(w')
    ensures var view := Inspect(w'.op.files, Stable(identity.native), identity, Some(r), true);
            && view.Receipt? && view.result == None
            && if r.delivery.ByHost? then (identity.native, SendPrompt(id)) in w'.performed && SendIssued(id) in view.phases
               else DeliveryHandedOff(id) in view.phases
  {
    hide Run, OnTrack, Scan, Inspect, Visible;
    var begin, w1 := BodyStarts(legacy, acts, w, c, identity, r);
    var body, w2, phases := SmoothRun(legacy, acts + begin, w1, c, identity, r, Begin, [], pin, id);
    more, w' := begin + body, w2;
    assert acts + more == acts + begin + body;
    ReceiptOnTrack(legacy, acts + more, w', c, identity, r, Ended, phases);
    if r.delivery.ByHost? {
      var i :| 0 <= i < |w'.performed| && w'.performed[i] == (identity.native, SendPrompt(id));
      WriteAheadEffects(legacy, acts + more, w', i);
    }
  }
}
