/** The desk bridge lifecycle lock: an O_EXCL lock file shared by plugin
    instances in many processes, with dead-holder recovery behind a second
    O_EXCL file.

    A run interleaves single file-system steps of every instance with process
    death and pid reuse.  A crash is a process death between any two steps. */
module LifecycleLock {
  import opened Options

  /** The record an instance writes into the lock file.  `identity` is the
      kernel identity of the holder's process where the platform has one. */
  datatype Holder = Holder(pid: nat, nonce: nat, identity: Option<nat>)

  /** `Malformed` is a file that exists but does not parse, in particular one
      that was created and never filled. */
  datatype LockFile = Absent | Malformed | Held(holder: Holder)

  /** Where an instance is between two of its file-system steps. */
  datatype Pc =
    | Idle
    | Created                      // the lock file was created exclusively, not yet filled
    | Contended                    // exclusive creation failed, holder not read yet
    | Unlinking                    // release read its own record and has yet to unlink
    | DeadHolder                   // the holder was classified dead, recover.lock not yet taken
    | Recovering                   // recover.lock created
    | Classified(suspect: Holder)  // holder read under recover.lock and found dead
    | Rechecked(suspect: Holder)   // second read gave the same bytes, still dead
    | Finishing                    // recovery over, recover.lock still to be released

  datatype Instance = Instance(pid: nat, identity: nat, records: bool, lockHeld: bool, pc: Pc)

  /** `running` maps a pid to the identity of the process that has it; an
      identity in `born` is never given to a second process. */
  datatype World = World(
    running: map<nat, nat>, born: set<nat>, instances: map<nat, Instance>,
    lock: LockFile, recover: Option<nat>)

  datatype Action =
    | Spawn(pid: nat, identity: nat)
    | Die(pid: nat)
    | Load(nonce: nat, pid: nat, records: bool)
    | CreateExclusive(nonce: nat)
    | Fill(nonce: nat)
    | FailFill(nonce: nat, whole: bool) // the write failed, or only its sync when the record is whole
    | ReadHolder(nonce: nat)
    | CreateRecover(nonce: nat)
    | Classify(nonce: nat)
    | Recheck(nonce: nat)
    | UnlinkDead(nonce: nat)
    | ReleaseRecover(nonce: nat)
    | Release(nonce: nat)
    | Unlink(nonce: nat)

  predicate Live(w: World, nonce: nat) {
    && nonce in w.instances
    && w.instances[nonce].pid in w.running
    && w.running[w.instances[nonce].pid] == w.instances[nonce].identity
  }

  /** The verdict "esrch" of the holder probe: the pid is gone, or the kernel
      reports another identity for it than the record names. */
  predicate ProvenDead(w: World, h: Holder) {
    h.pid !in w.running || (h.identity.Some? && w.running[h.pid] != h.identity.value)
  }

  predicate IsOwn(w: World, nonce: nat, h: Holder)
    requires nonce in w.instances
  {
    h.pid == w.instances[nonce].pid && h.nonce == nonce
  }

  function RecordOf(w: World, nonce: nat): Holder
    requires nonce in w.instances
  {
    var i := w.instances[nonce];
    Holder(i.pid, nonce, if i.records then Some(i.identity) else None)
  }

  function At(w: World, nonce: nat, pc: Pc): World
    requires nonce in w.instances
  {
    w.(instances := w.instances[nonce := w.instances[nonce].(pc := pc)])
  }

  function Hold(w: World, nonce: nat, held: bool): World
    requires nonce in w.instances
  {
    w.(instances := w.instances[nonce := w.instances[nonce].(pc := Idle, lockHeld := held)])
  }

  predicate Enabled(w: World, a: Action) {
    match a
    case Spawn(pid, identity) => pid !in w.running && identity !in w.born
    case Die(pid) => pid in w.running
    case Load(nonce, pid, _) => nonce !in w.instances && pid in w.running
    case CreateExclusive(n) => Live(w, n) && w.instances[n].pc.Idle?
    case Fill(n) => Live(w, n) && w.instances[n].pc.Created?
    case FailFill(n, _) => Live(w, n) && w.instances[n].pc.Created?
    case ReadHolder(n) => Live(w, n) && w.instances[n].pc.Contended?
    case CreateRecover(n) => Live(w, n) && w.instances[n].pc.DeadHolder?
    case Classify(n) => Live(w, n) && w.instances[n].pc.Recovering?
    case Recheck(n) => Live(w, n) && w.instances[n].pc.Classified?
    case UnlinkDead(n) => Live(w, n) && w.instances[n].pc.Rechecked?
    case ReleaseRecover(n) => Live(w, n) && w.instances[n].pc.Finishing?
    case Release(n) => Live(w, n) && w.instances[n].pc.Idle?
    case Unlink(n) => Live(w, n) && w.instances[n].pc.Unlinking?
  }

  function Next(w: World, a: Action): World
    requires Enabled(w, a)
  {
    match a
    case Spawn(pid, identity) => w.(running := w.running[pid := identity], born := w.born + {identity})
    case Die(pid) => w.(running := w.running - {pid})
    case Load(nonce, pid, records) =>
      w.(instances := w.instances[nonce := Instance(pid, w.running[pid], records, false, Idle)])
    case CreateExclusive(n) =>
      if w.lock.Absent? then At(w.(lock := Malformed), n, Created) else At(w, n, Contended)
    case Fill(n) => Hold(w.(lock := Held(RecordOf(w, n))), n, true)
    case FailFill(n, whole) => At(if whole then w.(lock := Held(RecordOf(w, n))) else w, n, Idle)
    case ReadHolder(n) =>
      if !w.lock.Held? then At(w, n, Idle)
      else if IsOwn(w, n, w.lock.holder) then Hold(w, n, true)
      else if ProvenDead(w, w.lock.holder) then At(w, n, DeadHolder)
      else At(w, n, Idle)
    case CreateRecover(n) =>
      if w.recover.None? then At(w.(recover := Some(n)), n, Recovering) else At(w, n, Idle)
    case Classify(n) =>
      if w.lock.Held? && ProvenDead(w, w.lock.holder) then At(w, n, Classified(w.lock.holder))
      else At(w, n, Finishing)
    case Recheck(n) =>
      var h := w.instances[n].pc.suspect;
      if w.lock == Held(h) && ProvenDead(w, h) then At(w, n, Rechecked(h)) else At(w, n, Finishing)
    case UnlinkDead(n) => At(w.(lock := Absent), n, Finishing)
    case ReleaseRecover(n) => At(if w.recover == Some(n) then w.(recover := None) else w, n, Idle)
    case Release(n) =>
      if !w.instances[n].lockHeld then w
      else if w.lock.Held? && IsOwn(w, n, w.lock.holder) then
        w.(instances := w.instances[n := w.instances[n].(lockHeld := false, pc := Unlinking)])
      else Hold(w, n, false)
    case Unlink(n) => At(w.(lock := Absent), n, Idle)
  }

  const INITIAL: World := World(map[], {}, map[], Absent, None)

  /** The world after a sequence of steps, or None when one of them was not possible. */
  function Run(acts: seq<Action>): Option<World> {
    if acts == [] then Some(INITIAL)
    else
      var last := acts[|acts| - 1];
      match Run(acts[..|acts| - 1])
      case None => None
      case Some(w) => if Enabled(w, last) then Some(Next(w, last)) else None
  }

  /** The instance believes it holds the lock, or has verified its record and is
      about to unlink it. */
  predicate Claims(i: Instance) {
    i.lockHeld || i.pc.Unlinking?
  }

  predicate UsesRecover(pc: Pc) {
    pc.Recovering? || pc.Classified? || pc.Rechecked? || pc.Finishing?
  }

  /** Process identities: never reused, and an instance is bound to one. */
  ghost predicate ProcessInv(w: World) {
    && (forall p <- w.running :: w.running[p] in w.born)
    && (forall n <- w.instances :: w.instances[n].identity in w.born)
  }

  /** What the two files say about each instance. */
  ghost predicate FileInv(w: World) {
    && (w.lock.Held? ==> w.lock.holder.nonce in w.instances && w.lock.holder == RecordOf(w, w.lock.holder.nonce))
    && (forall n <- w.instances :: InstanceInv(w, n))
    && (forall m <- w.instances, n <- w.instances ::
          w.instances[m].pc.Created? && w.instances[n].pc.Created? ==> m == n)
  }

  ghost predicate InstanceInv(w: World, n: nat)
    requires n in w.instances
  {
    var i := w.instances[n];
    && (Live(w, n) && Claims(i) ==> w.lock == Held(RecordOf(w, n)))
    && (i.pc.Created? ==> w.lock == Malformed)
    && (i.pc.Unlinking? ==> !i.lockHeld)
    && (UsesRecover(i.pc) ==> w.recover == Some(n))
    && (i.pc.Rechecked? ==> w.lock == Held(i.pc.suspect) && !Live(w, i.pc.suspect.nonce))
  }

  ghost predicate Inv(w: World) {
    ProcessInv(w) && FileInv(w)
  }

  /** A verdict of death is sound: no live instance is ever proven dead. */
  lemma ProvenDeadIsDead(w: World, n: nat)
    requires n in w.instances && ProvenDead(w, RecordOf(w, n))
    ensures !Live(w, n)
  {
  }

  predicate IsProcessAction(a: Action) {
    a.Spawn? || a.Die? || a.Load?
  }

  /** Process birth, death and plugin load move no file and revive no instance. */
  lemma ProcessActionKeepsInv(w: World, a: Action)
    requires Inv(w) && Enabled(w, a) && IsProcessAction(a)
    ensures Inv(Next(w, a))
  {
    var w' := Next(w, a);
    assert ProcessInv(w');
    forall n <- w'.instances
      ensures InstanceInv(w', n)
    {
      if n in w.instances {
        assert InstanceInv(w, n);
      }
    }
  }

  lemma FileActionKeepsOthers(w: World, a: Action, m: nat, n: nat)
    requires Inv(w) && Enabled(w, a) && !IsProcessAction(a)
    requires n == a.nonce && m in w.instances && m != n
    ensures InstanceInv(Next(w, a), m)
  {
    assert InstanceInv(w, m) && InstanceInv(w, n);
  }

  lemma FileActionKeepsOwn(w: World, a: Action, n: nat)
    requires Inv(w) && Enabled(w, a) && !IsProcessAction(a)
    requires n == a.nonce
    ensures InstanceInv(Next(w, a), n)
  {
    assert InstanceInv(w, n);
  }

  /** A file step changes one instance, and only its `lockHeld` and `pc`. */
  lemma FileActionFrame(w: World, a: Action)
    requires Inv(w) && Enabled(w, a) && !IsProcessAction(a)
    ensures var w', n := Next(w, a), a.nonce;
            && n in w'.instances && w'.instances == w.instances[n := w'.instances[n]]
            && w'.instances[n] == w.instances[n].(pc := w'.instances[n].pc, lockHeld := w'.instances[n].lockHeld)
            && w'.running == w.running && w'.born == w.born
            && (w'.instances[n].pc.Created? ==> w.lock.Absent?)
            && (w'.lock == w.lock || !w'.lock.Held? || w'.lock == Held(RecordOf(w, n)))
  {
  }

  lemma FileActionKeepsInv(w: World, a: Action)
    requires Inv(w) && Enabled(w, a) && !IsProcessAction(a)
    ensures Inv(Next(w, a))
  {
    hide Next, InstanceInv;
    FileActionFrame(w, a);
    var w', n := Next(w, a), a.nonce;
    forall m <- w'.instances
      ensures InstanceInv(w', m)
    {
      if m == n { FileActionKeepsOwn(w, a, n); } else { FileActionKeepsOthers(w, a, m, n); }
    }
    forall k <- w'.instances | k != n && w'.instances[k].pc.Created?
      ensures !w'.instances[n].pc.Created?
    {
      CreatedMeansMalformed(w, k);
    }
  }

  lemma CreatedMeansMalformed(w: World, k: nat)
    requires k in w.instances && InstanceInv(w, k) && w.instances[k].pc.Created?
    ensures w.lock == Malformed
  {
  }

  lemma {:induction false} ReachableInv(acts: seq<Action>)
    requires Run(acts).Some?
    ensures Inv(Run(acts).value)
    decreases |acts|
  {
    if acts != [] {
      var last := acts[|acts| - 1];
      var before := Run(acts[..|acts| - 1]).value;
      ReachableInv(acts[..|acts| - 1]);
      if IsProcessAction(last) { ProcessActionKeepsInv(before, last); } else { FileActionKeepsInv(before, last); }
    }
  }

  /** At most one live instance ever believes it holds the bridge lock, and the
      lock file then carries exactly its record. */
  lemma MutualExclusion(acts: seq<Action>, w: World, m: nat, n: nat)
    requires Run(acts) == Some(w)
    requires Live(w, m) && w.instances[m].lockHeld
    requires Live(w, n) && w.instances[n].lockHeld
    ensures m == n && w.lock == Held(RecordOf(w, n))
  {
    ReachableInv(acts);
    assert InstanceInv(w, m) && InstanceInv(w, n);
  }

  /** Nothing but the holder's own release removes or replaces the lock of a
      live instance: not another instance's release, not a recovery. */
  lemma LiveHolderKeepsItsLock(acts: seq<Action>, w: World, a: Action, n: nat)
    requires Run(acts) == Some(w) && Enabled(w, a)
    requires Live(w, n) && w.lock == Held(RecordOf(w, n))
    requires Next(w, a).lock != w.lock
    ensures a == Unlink(n)
  {
    ReachableInv(acts);
    if !IsProcessAction(a) {
      assert InstanceInv(w, a.nonce);
    }
  }

  lemma RunSnoc(acts: seq<Action>, w: World, a: Action)
    requires Run(acts) == Some(w) && Enabled(w, a)
    ensures Run(acts + [a]) == Some(Next(w, a))
  {
    assert (acts + [a])[..|acts|] == acts;
  }

  /** A dead instance stays dead. */
  lemma LivedBefore(w: World, a: Action, n: nat)
    requires Inv(w) && Enabled(w, a) && n in w.instances && Live(Next(w, a), n)
    ensures Live(w, n) && RecordOf(Next(w, a), n) == RecordOf(w, n)
  {
  }

  /** As long as it lives and does not unlink it, the record of an instance stays in the
      lock file through any run of all the others, and nobody else holds the lock. */
  lemma {:induction false} RecordStays(acts: seq<Action>, w: World, more: seq<Action>, w': World, n: nat)
    requires Run(acts) == Some(w) && n in w.instances && w.lock == Held(RecordOf(w, n))
    requires Run(acts + more) == Some(w') && Live(w', n) && Unlink(n) !in more
    ensures w'.lock == Held(RecordOf(w', n)) && Live(w, n)
    ensures forall m :: Live(w', m) && w'.instances[m].lockHeld ==> m == n
    decreases |more|
  {
    ReachableInv(acts + more);
    if more == [] {
      assert acts + more == acts;
    } else {
      var before, last := more[..|more| - 1], more[|more| - 1];
      assert (acts + more)[..|acts + more| - 1] == acts + before;
      var v := Run(acts + before).value;
      ReachableInv(acts + before);
      InstancesStay(acts, w, before, v, n);
      LivedBefore(v, last, n);
      RecordStays(acts, w, before, v, n);
      if w'.lock != v.lock { LiveHolderKeepsItsLock(acts + before, v, last, n); }
    }
    forall m | Live(w', m) && w'.instances[m].lockHeld
      ensures m == n
    {
      assert InstanceInv(w', m);
    }
  }

  lemma {:induction false} InstancesStay(acts: seq<Action>, w: World, more: seq<Action>, w': World, n: nat)
    requires Run(acts) == Some(w) && n in w.instances && Run(acts + more) == Some(w')
    ensures n in w'.instances
    decreases |more|
  {
    if more == [] {
      assert acts + more == acts;
    } else {
      var before := more[..|more| - 1];
      assert (acts + more)[..|acts + more| - 1] == acts + before;
      InstancesStay(acts, w, before, Run(acts + before).value, n);
    }
  }

  /** An acquisition that failed on the sync of its whole record leaves a lock that the
      instance does not believe it holds. */
  lemma FailedRecordIsLeft(acts: seq<Action>, w: World, n: nat)
    requires Run(acts) == Some(w) && Live(w, n) && w.instances[n].pc.Created?
    ensures Run(acts + [FailFill(n, true)]).Some?
    ensures var v := Run(acts + [FailFill(n, true)]).value;
            n in v.instances && v.lock == Held(RecordOf(v, n)) && v.instances[n].lockHeld == w.instances[n].lockHeld
  {
    hide Run;
    RunSnoc(acts, w, FailFill(n, true));
  }

  /** Whatever all the others do after such a failure, the record stays, nobody else
      comes to hold the lock while the instance lives, and when it is idle again its
      next acquisition adopts it. */
  lemma OwnRecordIsAdopted(acts: seq<Action>, w: World, n: nat, more: seq<Action>, v: World)
    requires Run(acts) == Some(w) && Live(w, n) && w.instances[n].pc.Created?
    requires Run(acts + [FailFill(n, true)] + more) == Some(v) && Live(v, n) && v.instances[n].pc.Idle? && Unlink(n) !in more
    ensures v.lock == Held(RecordOf(v, n)) && forall m :: Live(v, m) && v.instances[m].lockHeld ==> m == n
    ensures var run := acts + [FailFill(n, true)] + more + [CreateExclusive(n)] + [ReadHolder(n)];
            && Run(run).Some?
            && var w' := Run(run).value; Live(w', n) && w'.instances[n].lockHeld && w'.lock == v.lock
  {
    hide Run;
    FailedRecordIsLeft(acts, w, n);
    var run := acts + [FailFill(n, true)];
    RecordStays(run, Run(run).value, more, v, n);
    RunSnoc(run + more, v, CreateExclusive(n));
    RunSnoc(run + more + [CreateExclusive(n)], Next(v, CreateExclusive(n)), ReadHolder(n));
  }

  /** The steps by which an instance takes over from a dead holder. */
  function Takeover(n: nat): seq<Action> {
    [CreateExclusive(n), ReadHolder(n), CreateRecover(n), Classify(n), Recheck(n), UnlinkDead(n), ReleaseRecover(n),
     CreateExclusive(n), Fill(n)]
  }

  lemma HolderIsAnother(acts: seq<Action>, w: World, n: nat)
    requires Run(acts) == Some(w) && Live(w, n) && w.lock.Held? && ProvenDead(w, w.lock.holder)
    ensures !IsOwn(w, n, w.lock.holder)
  {
    ReachableInv(acts);
    if IsOwn(w, n, w.lock.holder) { ProvenDeadIsDead(w, n); }
  }

  /** Only the latest position of an instance counts. */
  lemma AtTwice(w: World, n: nat, p: Pc, q: Pc, lock: LockFile, recover: Option<nat>)
    requires n in w.instances
    ensures At(At(w, n, p).(lock := lock, recover := recover), n, q) == At(w.(lock := lock, recover := recover), n, q)
  {
    var i := w.instances[n];
    assert w.instances[n := i.(pc := p)][n := i.(pc := q)] == w.instances[n := i.(pc := q)];
  }

  /** Up to the removal of the dead holder's record. */
  lemma DeadHolderIsCleared(acts: seq<Action>, w: World, n: nat)
    requires Run(acts) == Some(w) && Live(w, n) && w.instances[n].pc.Idle?
    requires w.lock.Held? && !IsOwn(w, n, w.lock.holder) && ProvenDead(w, w.lock.holder) && w.recover.None?
    ensures Run(acts + Takeover(n)[..7]) == Some(At(w.(lock := Absent), n, Idle))
  {
    hide Run;
    var t, h := Takeover(n), w.lock.holder;
    var held, free := w.(recover := Some(n)), w.(lock := Absent, recover := Some(n));
    AtTwice(w, n, Contended, DeadHolder, w.lock, None);
    AtTwice(w, n, DeadHolder, Recovering, w.lock, Some(n));
    AtTwice(held, n, Recovering, Classified(h), w.lock, Some(n));
    AtTwice(held, n, Classified(h), Rechecked(h), w.lock, Some(n));
    AtTwice(held, n, Rechecked(h), Finishing, Absent, Some(n));
    AtTwice(free, n, Finishing, Idle, Absent, None);
    RunSnoc(acts, w, t[0]);
    RunSnoc(acts + t[..1], At(w, n, Contended), t[1]) by { assert acts + t[..1] == acts + [t[0]]; }
    RunSnoc(acts + t[..2], At(w, n, DeadHolder), t[2]) by { assert acts + t[..2] == acts + t[..1] + [t[1]]; }
    RunSnoc(acts + t[..3], At(held, n, Recovering), t[3]) by { assert acts + t[..3] == acts + t[..2] + [t[2]]; }
    RunSnoc(acts + t[..4], At(held, n, Classified(h)), t[4]) by { assert acts + t[..4] == acts + t[..3] + [t[3]]; }
    RunSnoc(acts + t[..5], At(held, n, Rechecked(h)), t[5]) by { assert acts + t[..5] == acts + t[..4] + [t[4]]; }
    RunSnoc(acts + t[..6], At(free, n, Finishing), t[6]) by { assert acts + t[..6] == acts + t[..5] + [t[5]]; }
    assert acts + t[..7] == acts + t[..6] + [t[6]];
  }

  /** A dead holder never blocks for good: unless another recovery is under way, any
      idle live instance can take the lock over, by steps that are all possible. */
  lemma DeadHolderIsReplaced(acts: seq<Action>, w: World, n: nat)
    requires Run(acts) == Some(w) && Live(w, n) && w.instances[n].pc.Idle?
    requires w.lock.Held? && ProvenDead(w, w.lock.holder) && w.recover.None?
    ensures Run(acts + Takeover(n)).Some?
    ensures var w' := Run(acts + Takeover(n)).value;
            Live(w', n) && w'.instances[n].lockHeld && w'.lock == Held(RecordOf(w', n)) && w'.recover.None?
  {
    HolderIsAnother(acts, w, n);
    DeadHolderIsCleared(acts, w, n);
    hide Run;
    var t := Takeover(n);
    var run, at := acts + t[..7], At(w.(lock := Absent), n, Idle);
    RunSnoc(run, at, t[7]);
    var created := Next(at, t[7]);
    RunSnoc(run + [t[7]], created, t[8]);
    assert acts + t == run + [t[7]] + [t[8]];
  }
}
