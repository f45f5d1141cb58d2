/** Durable operation receipts: at-most-once execution behind an exclusive
    intent file, and the hash-linked phase records written while executing.

    Callers are interleaved one file-system step at a time over a shared file
    map, and may crash between any two steps, a half-written file included. A
    write can also throw when its bytes are already whole, because a sync or the
    close failed: the file then reads back, but the writer does not count it.
    What `execute` does is left arbitrary here. */
module Operation {
  import opened Options

  /** `native` stands for the tuple (repository, agent, kind, requestId) that the
      receipt address is derived from; `epoch` for the caller's membership. */
  datatype Identity = Identity(native: nat, epoch: nat)
  datatype Request = Request(placement: Placement, automaticPeer: bool, peerSelection: bool, delivery: Delivery, content: nat)
  datatype Placement = Unplaced | AtCaller | Existing(workspace: Option<nat>) | Worktree
  datatype Delivery = ByCaller | ByHost

  datatype Phase =
    | PlacementPlanned
    | WorkspaceOpenIssued
    | WorkspaceOpenReturned(workspace: nat)
    | TargetObserved(workspace: nat)
    | RouteNote(content: nat)
    | RouteSelected
    | Prepared(pin: nat)
    | CreateIssued(pin: nat)
    | CreateReturned(agent: nat)
    | CreateObserved(agent: nat, verified: bool)
    | MembershipObserved(agent: nat, registered: bool)
    | DeliveryHandedOff(agent: nat)
    | SendIssued(agent: nat)

  datatype Body =
    | IntentBody(identity: Identity, request: Request)
    | PhaseBody(phase: Phase)
    | ResultBody(result: nat)

  /** The digest of a record covers its body and its predecessor's digest; two
      different records never share one. */
  datatype Digest = Digest(previous: Option<Digest>, body: Body)

  /** `Torn` is a file that exists but does not read back as a record. */
  datatype File = Torn | Sealed(previous: Option<Digest>, body: Body)

  datatype Dir = Stable(native: nat) | Legacy(name: nat)
  datatype Name = IntentFile | PhaseFile(index: nat) | ResultFile
  datatype Path = Path(dir: Dir, name: Name)
  type Files = map<Path, File>

  const PHASE_BUDGET: nat := 16

  function Read(files: Files, dir: Dir, name: Name): Option<File> {
    var p := Path(dir, name);
    if p in files then Some(files[p]) else None
  }

  function SealOf(f: File): Digest
    requires f.Sealed?
  {
    Digest(f.previous, f.body)
  }

  // ---------------------------------------------------------------- locate

  /** Directories whose sealed intent belongs to the native identity. */
  function Matching(files: Files, native: nat): set<Dir> {
    set p <- files.Keys | p.name.IntentFile? && files[p].Sealed? && files[p].body.IntentBody?
                          && files[p].body.identity.native == native :: p.dir
  }

  /** An intent that cannot be read as one stops every namespace scan. */
  predicate ScanUnreadable(files: Files) {
    exists p <- files.Keys :: p.name.IntentFile? && !(files[p].Sealed? && files[p].body.IntentBody?)
  }

  datatype Located = NotFound | Found(dir: Dir) | Unprovable

  ghost function Scan(files: Files, native: nat): Located {
    var found := Matching(files, native);
    if ScanUnreadable(files) || |found| > 1 then Unprovable
    else if found == {} then NotFound
    else Found(var dir :| dir in found; dir)
  }

  // --------------------------------------------------------------- inspect

  datatype View =
    | Unreadable
    | NoIntent
    | WrongCaller
    | WrongEpoch
    | Conflict
    | Receipt(identity: Identity, epochMatches: bool, phases: seq<Phase>, result: Option<nat>)

  datatype Chain = BrokenChain | Chain(phases: seq<Phase>, tip: Digest)

  /** Walk phase files upward from `index` while they exist and link. */
  function ReadChain(files: Files, dir: Dir, index: nat, tip: Digest): Chain
    decreases PHASE_BUDGET - index
  {
    if index >= PHASE_BUDGET then Chain([], tip)
    else
      match Read(files, dir, PhaseFile(index))
      case None => Chain([], tip)
      case Some(f) =>
        if !f.Sealed? || f.previous != Some(tip) || !f.body.PhaseBody? then BrokenChain
        else
          match ReadChain(files, dir, index + 1, SealOf(f))
          case BrokenChain => BrokenChain
          case Chain(phases, last) => Chain([f.body.phase] + phases, last)
  }

  /** What a caller learns about an operation without executing anything. */
  function Inspect(files: Files, dir: Dir, identity: Identity, request: Option<Request>, mutation: bool): View {
    match Read(files, dir, IntentFile)
    case None => NoIntent
    case Some(Torn) => Unreadable
    case Some(Sealed(previous, body)) =>
      if !body.IntentBody? then Unreadable
      else if previous.Some? || body.identity.native != identity.native then WrongCaller
      else if mutation && body.identity.epoch != identity.epoch then WrongEpoch
      else if request.Some? && request.value != body.request then Conflict
      else
        match ReadChain(files, dir, 0, Digest(None, body))
        case BrokenChain => Unreadable
        case Chain(phases, tip) =>
          match Read(files, dir, ResultFile)
          case None => Receipt(body.identity, body.identity.epoch == identity.epoch, phases, None)
          case Some(Torn) => Unreadable
          case Some(Sealed(link, result)) =>
            if link != Some(tip) || !result.ResultBody? then Unreadable
            else Receipt(body.identity, body.identity.epoch == identity.epoch, phases, Some(result.result))
  }

  ghost function Prepend(phases: seq<Phase>, chain: Chain): Chain {
    match chain
    case BrokenChain => BrokenChain
    case Chain(more, tip) => Chain(phases + more, tip)
  }

  lemma PrependTwice(a: seq<Phase>, b: seq<Phase>, chain: Chain)
    ensures Prepend(a, Prepend(b, chain)) == Prepend(a + b, chain)
  {
    if chain.Chain? {
      assert a + (b + chain.phases) == (a + b) + chain.phases;
    }
  }

  lemma ChainStep(files: Files, dir: Dir, index: nat, tip: Digest)
    requires index < PHASE_BUDGET
    ensures match Read(files, dir, PhaseFile(index))
            case None => ReadChain(files, dir, index, tip) == Chain([], tip)
            case Some(f) =>
              if f.Sealed? && f.previous == Some(tip) && f.body.PhaseBody?
              then ReadChain(files, dir, index, tip) == Prepend([f.body.phase], ReadChain(files, dir, index + 1, SealOf(f)))
              else ReadChain(files, dir, index, tip) == BrokenChain
  {
  }

  /** The record loop of `inspect`: read 0.json, 1.json, ... and follow `previous`. */
  method WalkPhases(files: Files, dir: Dir, intent: Digest) returns (chain: Chain)
    ensures chain == ReadChain(files, dir, 0, intent)
  {
    hide ReadChain, Prepend, Read;
    var previous, phases := intent, [];
    var index := 0;
    PrependNothing(ReadChain(files, dir, 0, intent));
    while index < PHASE_BUDGET
      invariant 0 <= index <= PHASE_BUDGET
      invariant ReadChain(files, dir, 0, intent) == Prepend(phases, ReadChain(files, dir, index, previous))
    {
      ChainStep(files, dir, index, previous);
      var row := Read(files, dir, PhaseFile(index));
      if row.None? {
        EndOfChain(phases, previous);
        return Chain(phases, previous);
      }
      if !row.value.Sealed? || row.value.previous != Some(previous) || !row.value.body.PhaseBody? {
        EndOfChain(phases, previous);
        return BrokenChain;
      }
      var phase := row.value.body.phase;
      PrependTwice(phases, [phase], ReadChain(files, dir, index + 1, SealOf(row.value)));
      phases := phases + [phase];
      previous := SealOf(row.value);
      index := index + 1;
    }
    EndOfBudget(files, dir, previous);
    EndOfChain(phases, previous);
    return Chain(phases, previous);
  }

  lemma PrependNothing(chain: Chain)
    ensures Prepend([], chain) == chain
  {
    if chain.Chain? {
      assert [] + chain.phases == chain.phases;
    }
  }

  lemma EndOfChain(phases: seq<Phase>, tip: Digest)
    ensures Prepend(phases, Chain([], tip)) == Chain(phases, tip)
    ensures Prepend(phases, BrokenChain) == BrokenChain
  {
    assert phases + [] == phases;
  }

  lemma EndOfBudget(files: Files, dir: Dir, tip: Digest)
    ensures ReadChain(files, dir, PHASE_BUDGET, tip) == Chain([], tip)
  {
  }

  /** The legacy scan of `locate`, one directory at a time. */
  method ScanNamespace(files: Files, dirs: seq<Dir>, native: nat) returns (found: Located)
    requires forall i, j :: 0 <= i < j < |dirs| ==> dirs[i] != dirs[j]
    requires forall d :: d in dirs <==> Path(d, IntentFile) in files
    ensures found == Scan(files, native)
  {
    found := NotFound;
    var seen: set<Dir> := {};
    for i := 0 to |dirs|
      invariant seen == set d <- dirs[..i] | d in Matching(files, native)
      invariant forall d <- dirs[..i] :: files[Path(d, IntentFile)].Sealed? && files[Path(d, IntentFile)].body.IntentBody?
      invariant found == NotFound <==> seen == {}
      invariant found != NotFound ==> found.Found? && seen == {found.dir}
    {
      assert dirs[i] in dirs && dirs[..i + 1] == dirs[..i] + [dirs[i]];
      var intent := files[Path(dirs[i], IntentFile)];
      if !intent.Sealed? || !intent.body.IntentBody? {
        assert ScanUnreadable(files);
        return Unprovable;
      }
      if intent.body.identity.native != native { continue; }
      if found != NotFound {
        assert {found.dir, dirs[i]} <= Matching(files, native);
        SubsetCardinality({found.dir, dirs[i]}, Matching(files, native));
        return Unprovable;
      }
      found := Found(dirs[i]);
      seen := {dirs[i]};
    }
    assert dirs[..|dirs|] == dirs;
    assert seen == Matching(files, native);
    forall p <- files.Keys | p.name.IntentFile?
      ensures files[p].Sealed? && files[p].body.IntentBody?
    {
      assert p == Path(p.dir, IntentFile) && p.dir in dirs;
    }
  }

  lemma SubsetCardinality<T>(small: set<T>, large: set<T>)
    requires small <= large
    ensures |small| <= |large|
    decreases small
  {
    if x :| x in small {
      SubsetCardinality(small - {x}, large - {x});
    }
  }

  // ------------------------------------------------------------- protocol

  datatype Stage =
    | Entry
    | Scanning
    | Preflight
    | EntryAgain(refused: bool)
    | ScanningAgain(refused: bool)
    | Publish
    | Created
    | Executing
    | WritingPhase(phase: Phase)
    | WritingResult(result: nat)
    | Left

  datatype Caller = Caller(identity: Identity, request: Request, preflight: bool, stage: Stage, crashed: bool)

  /** One attempted phase write: completed; written whole by a call that then threw,
      because a sync or the close failed; left half written; or skipped because it
      failed before it created its file. */
  datatype Slot = Whole(phase: Phase) | Unacknowledged(phase: Phase) | Broken | Skipped

  /** A result file is whole whether its write was acknowledged or threw on a sync. */
  datatype Outcome = NoResult | TornResult | Recorded(result: nat, acknowledged: bool)

  /** History of one operation directory. `published` says that the intent file is
      whole, which it is too when its write threw on a sync and nothing started. */
  datatype Record = Record(holder: nat, identity: Identity, request: Request, published: bool,
                           slots: seq<Slot>, writing: bool, outcome: Outcome)

  /** `records` and `starts` are history: who created each stable directory and
      what was put in it, and the callers whose `execute` was started. */
  datatype World = World(files: Files, callers: map<nat, Caller>, records: map<nat, Record>, starts: seq<nat>)

  datatype Action =
    | Call(c: nat, identity: Identity, request: Request, preflight: bool)
    | ReadOwn(c: nat)
    | ScanAll(c: nat, withinBounds: bool)
    | FinishPreflight(c: nat, refused: bool)
    | GiveUp(c: nat)
    | CreateIntent(c: nat)
    | SealIntent(c: nat)
    | LoseIntent(c: nat)
    | BeginPhase(c: nat, phase: Phase)
    | SealPhase(c: nat)
    | LosePhase(c: nat)
    | TearPhase(c: nat)
    | SkipPhase(c: nat)
    | BeginResult(c: nat, result: nat)
    | SealResult(c: nat, acknowledged: bool)
    | Leave(c: nat)
    | Crash(c: nat)

  predicate Running(w: World, c: nat) {
    c in w.callers && !w.callers[c].crashed
  }

  predicate Enabled(w: World, a: Action) {
    if a.Call? then a.c !in w.callers
    else
      && Running(w, a.c)
      && var stage := w.callers[a.c].stage;
         match a
         case Call(_, _, _, _) => false
         case ReadOwn(_) => stage.Entry? || stage.EntryAgain?
         case ScanAll(_, _) => stage.Scanning? || stage.ScanningAgain?
         case FinishPreflight(_, _) => stage.Preflight?
         case GiveUp(_) => stage.Publish?
         case CreateIntent(_) => stage.Publish?
         case SealIntent(c) => stage.Created? && KeyOf(w, c) in w.records
         case LoseIntent(c) => stage.Created? && KeyOf(w, c) in w.records
         case BeginPhase(c, _) => stage.Executing? && KeyOf(w, c) in w.records && |w.records[KeyOf(w, c)].slots| < PHASE_BUDGET
         case SealPhase(c) => stage.WritingPhase? && KeyOf(w, c) in w.records
         case LosePhase(c) => stage.WritingPhase? && KeyOf(w, c) in w.records
         case TearPhase(c) => stage.WritingPhase? && KeyOf(w, c) in w.records
         case SkipPhase(c) => stage.Executing? && KeyOf(w, c) in w.records && |w.records[KeyOf(w, c)].slots| < PHASE_BUDGET
         case BeginResult(c, _) => stage.Executing? && KeyOf(w, c) in w.records
         case SealResult(c, _) => stage.WritingResult? && KeyOf(w, c) in w.records
         case Leave(_) => stage.Created? || stage.Executing? || stage.WritingResult?
         case Crash(_) => true
  }

  function KeyOf(w: World, c: nat): nat
    requires c in w.callers
  {
    w.callers[c].identity.native
  }

  function Move(w: World, c: nat, stage: Stage): World
    requires c in w.callers
  {
    w.(callers := w.callers[c := w.callers[c].(stage := stage)])
  }

  function Put(w: World, key: nat, name: Name, f: File): World {
    w.(files := w.files[Path(Stable(key), name) := f])
  }

  function Note(w: World, key: nat, r: Record): World {
    w.(records := w.records[key := r])
  }

  /** The digest that the writer holds in `previous` after its attempts. */
  function Link(intent: Body, slots: seq<Slot>): Digest {
    if slots == [] then Digest(None, intent)
    else
      var before := Link(intent, slots[..|slots| - 1]);
      if slots[|slots| - 1].Whole? then Digest(Some(before), PhaseBody(slots[|slots| - 1].phase)) else before
  }

  function Tip(r: Record, n: nat): Digest
    requires n <= |r.slots|
  {
    Link(IntentBody(r.identity, r.request), r.slots[..n])
  }

  ghost function Next(w: World, a: Action): World
    requires Enabled(w, a)
  {
    if a.Call? then w.(callers := w.callers[a.c := Caller(a.identity, a.request, a.preflight, Entry, false)])
    else
      var c := a.c;
      var caller := w.callers[c];
      var key := caller.identity.native;
      match a
      case Call(_, _, _, _) => w
      case ReadOwn(_) =>
        if Read(w.files, Stable(key), IntentFile).Some? then Move(w, c, Left)
        else if caller.stage.Entry? then Move(w, c, Scanning)
        else Move(w, c, ScanningAgain(caller.stage.refused))
      case ScanAll(_, withinBounds) =>
        if !withinBounds || Scan(w.files, key) != NotFound then Move(w, c, Left)
        else if caller.stage.ScanningAgain? then Move(w, c, if caller.stage.refused then Left else Publish)
        else Move(w, c, if caller.preflight then Preflight else Publish)
      case FinishPreflight(_, refused) => Move(w, c, EntryAgain(refused))
      case GiveUp(_) => Move(w, c, Left)
      case CreateIntent(_) =>
        if Read(w.files, Stable(key), IntentFile).Some? then Move(w, c, Left)
        else
          Move(Note(Put(w, key, IntentFile, Torn), key,
                    Record(c, caller.identity, caller.request, false, [], false, NoResult)), c, Created)
      case SealIntent(_) =>
        var intent := Sealed(None, IntentBody(caller.identity, caller.request));
        var published := Put(w, key, IntentFile, intent).(starts := w.starts + [c]);
        Move(Note(published, key, w.records[key].(published := true)), c, Executing)
      case LoseIntent(_) =>
        var intent := Sealed(None, IntentBody(caller.identity, caller.request));
        Move(Note(Put(w, key, IntentFile, intent), key, w.records[key].(published := true)), c, Left)
      case BeginPhase(_, phase) =>
        var r := w.records[key];
        Move(Note(Put(w, key, PhaseFile(|r.slots|), Torn), key, r.(writing := true)), c, WritingPhase(phase))
      case SealPhase(_) =>
        var r := w.records[key];
        var phase := caller.stage.phase;
        Move(Note(Put(w, key, PhaseFile(|r.slots|), Sealed(Some(Tip(r, |r.slots|)), PhaseBody(phase))), key,
                  r.(slots := r.slots + [Whole(phase)], writing := false)), c, Executing)
      case LosePhase(_) =>
        var r := w.records[key];
        var phase := caller.stage.phase;
        Move(Note(Put(w, key, PhaseFile(|r.slots|), Sealed(Some(Tip(r, |r.slots|)), PhaseBody(phase))), key,
                  r.(slots := r.slots + [Unacknowledged(phase)], writing := false)), c, Executing)
      case TearPhase(_) =>
        var r := w.records[key];
        Move(Note(w, key, r.(slots := r.slots + [Broken], writing := false)), c, Executing)
      case SkipPhase(_) =>
        var r := w.records[key];
        Note(w, key, r.(slots := r.slots + [Skipped]))
      case BeginResult(_, result) =>
        Move(Note(Put(w, key, ResultFile, Torn), key, w.records[key].(outcome := TornResult)), c, WritingResult(result))
      case SealResult(_, acknowledged) =>
        var r := w.records[key];
        var result := caller.stage.result;
        Move(Note(Put(w, key, ResultFile, Sealed(Some(Tip(r, |r.slots|)), ResultBody(result))), key,
                  r.(outcome := Recorded(result, acknowledged))), c, Left)
      case Leave(_) => Move(w, c, Left)
      case Crash(_) => w.(callers := w.callers[c := caller.(crashed := true)])
  }

  /** A namespace that holds only receipts of the older, epoch-addressed format. */
  predicate OnlyLegacy(files: Files) {
    forall p <- files.Keys :: p.dir.Legacy?
  }

  ghost function Run(legacy: Files, acts: seq<Action>): Option<World> {
    if acts == [] then Some(World(legacy, map[], map[], []))
    else
      var last := acts[|acts| - 1];
      match Run(legacy, acts[..|acts| - 1])
      case None => None
      case Some(w) => if Enabled(w, last) then Some(Next(w, last)) else None
  }

  // ------------------------------------------------------------ invariants

  /** The file a record says is at `name`. */
  function Expected(r: Record, name: Name): Option<File> {
    match name
    case IntentFile => Some(if r.published then Sealed(None, IntentBody(r.identity, r.request)) else Torn)
    case PhaseFile(i) =>
      if i < |r.slots| then
        match r.slots[i]
        case Whole(phase) => Some(Sealed(Some(Tip(r, i)), PhaseBody(phase)))
        case Unacknowledged(phase) => Some(Sealed(Some(Tip(r, i)), PhaseBody(phase)))
        case Broken => Some(Torn)
        case Skipped => None
      else if i == |r.slots| && r.writing then Some(Torn) else None
    case ResultFile =>
      match r.outcome
      case NoResult => None
      case TornResult => Some(Torn)
      case Recorded(result, _) => Some(Sealed(Some(Tip(r, |r.slots|)), ResultBody(result)))
  }

  ghost predicate FilesMatch(w: World) {
    && (forall key, name :: key in w.records ==> Read(w.files, Stable(key), name) == Expected(w.records[key], name))
    && (forall key, name :: key !in w.records ==> Read(w.files, Stable(key), name) == None)
    && (forall key <- w.records :: w.records[key].identity.native == key && WithinBudget(w.records[key]))
  }

  predicate WithinBudget(r: Record) {
    |r.slots| <= PHASE_BUDGET && (r.writing ==> |r.slots| < PHASE_BUDGET)
  }

  predicate InsideRun(stage: Stage) {
    stage.Created? || stage.Executing? || stage.WritingPhase? || stage.WritingResult?
  }

  ghost predicate CallerInv(w: World, c: nat)
    requires c in w.callers
  {
    var caller := w.callers[c];
    var key := caller.identity.native;
    InsideRun(caller.stage) ==>
      && key in w.records
      && var r := w.records[key];
         && r.holder == c && r.identity == caller.identity && r.request == caller.request
         && r.published == !caller.stage.Created?
         && r.writing == caller.stage.WritingPhase?
         && (r.outcome.NoResult? <==> !caller.stage.WritingResult?)
         && (caller.stage.Created? ==> r.slots == [])
  }

  /** Inside `execute`, or writing its result. */
  predicate Started(stage: Stage) {
    InsideRun(stage) && !stage.Created?
  }

  /** Nothing was written beside the intent. */
  predicate Untouched(r: Record) {
    r.slots == [] && !r.writing && r.outcome.NoResult?
  }

  ghost predicate StartsInv(w: World) {
    StartsOwn(w) && StartsCover(w)
  }

  ghost predicate OwnsStart(w: World, c: nat) {
    && c in w.callers && KeyOf(w, c) in w.records
    && w.records[KeyOf(w, c)].holder == c && w.records[KeyOf(w, c)].published
    && w.records[KeyOf(w, c)].identity == w.callers[c].identity && w.records[KeyOf(w, c)].request == w.callers[c].request
  }

  /** Each start is by the holder of a published record, and no caller starts twice. */
  ghost predicate StartsOwn(w: World) {
    && (forall c <- w.starts :: OwnsStart(w, c))
    && (forall i, j :: 0 <= i < j < |w.starts| ==> w.starts[i] != w.starts[j])
  }

  /** Who executes has started, and what nobody started was left alone. */
  ghost predicate StartsCover(w: World) {
    && (forall c <- w.callers :: Started(w.callers[c].stage) ==> c in w.starts)
    && (forall key <- w.records :: w.records[key].holder in w.starts || Untouched(w.records[key]))
  }

  ghost predicate Inv(w: World) {
    FilesMatch(w) && (forall c <- w.callers :: CallerInv(w, c)) && StartsInv(w)
  }

  /** What never changes of a record. */
  predicate SameHolder(r: Record, r': Record) {
    r'.holder == r.holder && r'.identity == r.identity && r'.request == r.request && (r.published ==> r'.published)
  }

  /** A step of caller `c` changes its own record at most, and only from inside its run. */
  lemma OwnRecord(w: World, a: Action)
    requires Enabled(w, a) && !a.Call?
    ensures var w', key := Next(w, a), KeyOf(w, a.c);
            && w'.starts == (if a.SealIntent? then w.starts + [a.c] else w.starts)
            && (w'.records == w.records || (key in w'.records && w'.records == w.records[key := w'.records[key]]))
            && (w'.records == w.records || InsideRun(w.callers[a.c].stage)
                || (a.CreateIntent? && Read(w.files, Stable(key), IntentFile).None?))
            && (key in w.records && !a.CreateIntent? ==> SameHolder(w.records[key], w'.records[key]))
            && (a.SealIntent? ==> w'.records[key].published)
  {
    hide Scan, Link, Read;
  }

  /** A step of caller `c` touches only the record and files of its own key. */
  lemma NextFrame(w: World, a: Action)
    requires Inv(w) && Enabled(w, a) && !a.Call?
    ensures var w', key := Next(w, a), KeyOf(w, a.c);
            && a.c in w'.callers && w'.callers == w.callers[a.c := w'.callers[a.c]]
            && w'.callers[a.c].identity == w.callers[a.c].identity && w'.callers[a.c].request == w.callers[a.c].request
            && (w'.records == w.records || (key in w'.records && w'.records == w.records[key := w'.records[key]]))
            && (forall dir: Dir, name: Name :: dir != Stable(key) ==> Read(w'.files, dir, name) == Read(w.files, dir, name))
  {
    hide Inv, Scan, Link;
  }

  /** Appending an attempt leaves the expected content of every earlier file. */
  lemma ExpectedAppend(r: Record, slot: Slot, name: Name)
    requires name != PhaseFile(|r.slots|) && r.outcome.NoResult?
    ensures Expected(r.(slots := r.slots + [slot], writing := false), name) == Expected(r.(writing := false), name)
  {
    var s := r.(slots := r.slots + [slot], writing := false);
    if name.PhaseFile? && name.index < |r.slots| {
      assert s.slots[..name.index] == r.slots[..name.index];
    }
  }

  /** What a finished attempt at a phase left behind. */
  function Attempt(w: World, a: Action): Slot
    requires (a.SealPhase? || a.LosePhase? || a.TearPhase? || a.SkipPhase?) && Enabled(w, a)
  {
    match a
    case SealPhase(c) => Whole(w.callers[c].stage.phase)
    case LosePhase(c) => Unacknowledged(w.callers[c].stage.phase)
    case TearPhase(_) => Broken
    case _ => Skipped
  }

  /** A finished attempt at a phase leaves every other file, and puts the right one in its place. */
  lemma AttemptFiles(w: World, a: Action, name: Name)
    requires (a.SealPhase? || a.LosePhase? || a.TearPhase? || a.SkipPhase?) && Enabled(w, a) && CallerInv(w, a.c)
    requires KeyOf(w, a.c) in w.records && Read(w.files, Stable(KeyOf(w, a.c)), name) == Expected(w.records[KeyOf(w, a.c)], name)
    ensures Read(Next(w, a).files, Stable(KeyOf(w, a.c)), name) == Expected(Next(w, a).records[KeyOf(w, a.c)], name)
  {
    var r := w.records[KeyOf(w, a.c)];
    if name != PhaseFile(|r.slots|) {
      ExpectedAppend(r, Attempt(w, a), name);
    } else if a.SealPhase? || a.LosePhase? {
      var r' := Next(w, a).records[KeyOf(w, a.c)];
      assert r'.slots[..|r.slots|] == r.slots[..|r.slots|];
    }
  }

  /** After a step the files of the caller's own directory are the recorded ones. */
  lemma OwnFiles(w: World, a: Action, name: Name)
    requires Inv(w) && Enabled(w, a) && !a.Call?
    ensures var w', key := Next(w, a), KeyOf(w, a.c);
            Read(w'.files, Stable(key), name) == if key in w'.records then Expected(w'.records[key], name) else None
  {
    var key := KeyOf(w, a.c);
    assert CallerInv(w, a.c);
    assert Read(w.files, Stable(key), name) == if key in w.records then Expected(w.records[key], name) else None;
    assert Read(w.files, Stable(key), IntentFile).Some? <==> key in w.records;
    hide Inv, FilesMatch, StartsInv, Tip;
    if a.SealPhase? || a.LosePhase? || a.TearPhase? || a.SkipPhase? {
      hide Next, Expected, CallerInv;
      AttemptFiles(w, a, name);
    } else {
      PlainFiles(w, a, name);
    }
  }

  /** A step that finishes no phase changes one file of the directory at most. */
  lemma PlainFiles(w: World, a: Action, name: Name)
    requires Enabled(w, a) && !a.Call? && !(a.SealPhase? || a.LosePhase? || a.TearPhase? || a.SkipPhase?) && CallerInv(w, a.c)
    requires var key := KeyOf(w, a.c);
             && Read(w.files, Stable(key), name) == (if key in w.records then Expected(w.records[key], name) else None)
             && (Read(w.files, Stable(key), IntentFile).Some? <==> key in w.records)
    ensures var w', key := Next(w, a), KeyOf(w, a.c);
            Read(w'.files, Stable(key), name) == if key in w'.records then Expected(w'.records[key], name) else None
  {
    hide Link, Scan;
  }

  lemma KeepsFiles(w: World, a: Action)
    requires Inv(w) && Enabled(w, a)
    ensures FilesMatch(Next(w, a))
  {
    if !a.Call? {
      var w', own := Next(w, a), KeyOf(w, a.c);
      assert FilesMatch(w);
      hide Next, Expected, Read, Enabled, CallerInv, Inv, WithinBudget;
      KeepsBudgets(w, a);
      NextFrame(w, a);
      forall name: Name
        ensures Read(w'.files, Stable(own), name) == if own in w'.records then Expected(w'.records[own], name) else None
      {
        OwnFiles(w, a, name);
      }
    }
  }

  lemma KeepsBudgets(w: World, a: Action)
    requires Inv(w) && Enabled(w, a) && !a.Call?
    ensures var w' := Next(w, a);
            forall key <- w'.records :: w'.records[key].identity.native == key && WithinBudget(w'.records[key])
  {
    assert CallerInv(w, a.c);
    OwnBudget(w, a);
    assert FilesMatch(w);
    hide Inv, Next, Enabled, Read, WithinBudget;
    OwnRecord(w, a);
  }

  lemma OwnBudget(w: World, a: Action)
    requires Enabled(w, a) && !a.Call? && CallerInv(w, a.c)
    requires KeyOf(w, a.c) in w.records ==>
               WithinBudget(w.records[KeyOf(w, a.c)]) && w.records[KeyOf(w, a.c)].identity.native == KeyOf(w, a.c)
    ensures var w', key := Next(w, a), KeyOf(w, a.c);
            key in w'.records ==> WithinBudget(w'.records[key]) && w'.records[key].identity.native == key
  {
    hide Scan, Link, Read;
  }

  lemma KeepsOwnCaller(w: World, a: Action)
    requires Inv(w) && Enabled(w, a) && !a.Call?
    ensures CallerInv(Next(w, a), a.c)
  {
    assert CallerInv(w, a.c);
    assert Read(w.files, Stable(KeyOf(w, a.c)), IntentFile).Some? <==> KeyOf(w, a.c) in w.records;
    hide FilesMatch, StartsInv, Expected, Scan, Link, Read;
  }

  /** Only the holder of a record changes it. */
  lemma OnlyHolderWrites(w: World, a: Action, key: nat)
    requires Inv(w) && Enabled(w, a) && !a.Call?
    requires key in w.records && (key !in Next(w, a).records || Next(w, a).records[key] != w.records[key])
    ensures w.records[key].holder == a.c && InsideRun(w.callers[a.c].stage)
  {
    assert CallerInv(w, a.c);
    assert Read(w.files, Stable(KeyOf(w, a.c)), IntentFile).Some? <==> KeyOf(w, a.c) in w.records;
    hide Inv, Next, Enabled, Read;
    OwnRecord(w, a);
  }

  lemma KeepsCallers(w: World, a: Action)
    requires Inv(w) && Enabled(w, a)
    ensures forall c <- Next(w, a).callers :: CallerInv(Next(w, a), c)
  {
    var w' := Next(w, a);
    if a.Call? {
      forall c <- w'.callers
        ensures CallerInv(w', c)
      {
        if c != a.c { assert CallerInv(w, c); }
      }
    } else {
      NextFrame(w, a);
      hide Next;
      forall c <- w'.callers
        ensures CallerInv(w', c)
      {
        if c == a.c {
          KeepsOwnCaller(w, a);
        } else {
          assert CallerInv(w, c);
          var key := KeyOf(w, c);
          if InsideRun(w.callers[c].stage) && (key !in w'.records || w'.records[key] != w.records[key]) {
            OnlyHolderWrites(w, a, key);
          }
        }
      }
    }
  }

  /** Publication of the intent is the only step that starts an execution. */
  lemma StartFrame(w: World, a: Action)
    requires Inv(w) && Enabled(w, a)
    ensures var w' := Next(w, a);
            && w'.starts == (if a.SealIntent? then w.starts + [a.c] else w.starts)
            && (forall key <- w.records :: key in w'.records && w'.records[key].holder == w.records[key].holder
                  && w'.records[key].identity == w.records[key].identity && w'.records[key].request == w.records[key].request)
            && (forall key <- w.records | w.records[key].published :: w'.records[key].published)
            && (a.SealIntent? ==> w'.records[KeyOf(w, a.c)].published)
  {
    if !a.Call? {
      assert Read(w.files, Stable(KeyOf(w, a.c)), IntentFile).Some? <==> KeyOf(w, a.c) in w.records;
      hide Inv, Next, Enabled, Read;
      OwnRecord(w, a);
    }
  }

  lemma KeepsStarts(w: World, a: Action)
    requires Inv(w) && Enabled(w, a)
    ensures StartsInv(Next(w, a))
  {
    if a.Call? {
      CallOnlyAdds(w, a);
      hide Next, FilesMatch, CallerInv, Enabled;
    } else {
      hide Next, Inv, Enabled, StartsOwn, StartsCover;
      KeepsStartsOwn(w, a);
      KeepsStartsCover(w, a);
    }
  }

  lemma KeepsStartsOwn(w: World, a: Action)
    requires Inv(w) && Enabled(w, a) && !a.Call?
    ensures StartsOwn(Next(w, a))
  {
    assert StartsOwn(w);
    hide Next, Inv, StartsCover, CallerInv, Enabled, Read, OwnsStart;
    StartFrame(w, a);
    forall c <- Next(w, a).starts
      ensures OwnsStart(Next(w, a), c)
    {
      OwnsStartKept(w, a, c);
    }
    if a.SealIntent? { SealsOwnRecord(w, a); }
  }

  lemma OwnsStartKept(w: World, a: Action, c: nat)
    requires Inv(w) && Enabled(w, a) && !a.Call?
    requires OwnsStart(w, c) || (a.SealIntent? && c == a.c)
    ensures OwnsStart(Next(w, a), c)
  {
    hide Next, Inv, CallerInv, Enabled, Read;
    StartFrame(w, a);
    NextFrame(w, a);
    if a.SealIntent? { SealsOwnRecord(w, a); }
  }

  lemma KeepsStartsCover(w: World, a: Action)
    requires Inv(w) && Enabled(w, a) && !a.Call?
    ensures StartsCover(Next(w, a))
  {
    assert StartsCover(w);
    hide Next, Inv, StartsOwn, CallerInv, Enabled, Read, Started, Untouched;
    StartFrame(w, a);
    NextFrame(w, a);
    WritesAreStarted(w, a);
    var w' := Next(w, a);
    forall c <- w'.callers | Started(w'.callers[c].stage)
      ensures c in w'.starts
    {
      if c != a.c { assert c in w.starts; }
    }
    forall key <- w'.records
      ensures w'.records[key].holder in w'.starts || Untouched(w'.records[key])
    {
      if key != KeyOf(w, a.c) { assert key in w.records; }
    }
  }

  /** Before its start a caller creates a record at most, and nothing but publication starts it. */
  lemma UnstartedStep(w: World, a: Action)
    requires Enabled(w, a) && !a.Call? && CallerInv(w, a.c) && !Started(w.callers[a.c].stage)
    ensures var w', key := Next(w, a), KeyOf(w, a.c);
            && (Started(w'.callers[a.c].stage) ==> a.SealIntent?)
            && (key in w'.records ==> (key in w.records && w'.records[key] == w.records[key]) || Untouched(w'.records[key]))
  {
    hide Read, Scan, Tip, Expected;
  }

  /** Only a started caller writes beside its intent. */
  lemma WritesAreStarted(w: World, a: Action)
    requires Inv(w) && Enabled(w, a) && !a.Call?
    ensures var w', key := Next(w, a), KeyOf(w, a.c);
            && (Started(w'.callers[a.c].stage) ==> a.c in w'.starts)
            && (key in w'.records ==>
                  || (key in w.records && w'.records[key] == w.records[key])
                  || Untouched(w'.records[key])
                  || w'.records[key].holder in w.starts)
  {
    assert CallerInv(w, a.c) && StartsCover(w);
    hide Inv, Next, Enabled, Read;
    OwnRecord(w, a);
    if Started(w.callers[a.c].stage) {
      StartedSteps(w, a);
    } else {
      UnstartedStep(w, a);
    }
  }

  lemma StartedSteps(w: World, a: Action)
    requires Enabled(w, a) && !a.Call? && Started(w.callers[a.c].stage)
    ensures !a.CreateIntent?
  {
  }

  lemma CallOnlyAdds(w: World, a: Action)
    requires Enabled(w, a) && a.Call?
    ensures a.c !in w.callers && Next(w, a).records == w.records && Next(w, a).starts == w.starts
    ensures forall c <- w.callers :: c in Next(w, a).callers && Next(w, a).callers[c] == w.callers[c]
  {
  }

  /** Publication is by the holder of a record that was not published before. */
  lemma SealsOwnRecord(w: World, a: Action)
    requires Inv(w) && Enabled(w, a) && a.SealIntent?
    ensures var key := KeyOf(w, a.c);
            && key in w.records && !w.records[key].published && w.records[key].holder == a.c
            && w.records[key].identity == w.callers[a.c].identity && w.records[key].request == w.callers[a.c].request
            && a.c !in w.starts
  {
    assert CallerInv(w, a.c);
  }

  lemma {:induction false} ReachableInv(legacy: Files, acts: seq<Action>)
    requires OnlyLegacy(legacy) && Run(legacy, acts).Some?
    ensures Inv(Run(legacy, acts).value)
    decreases |acts|
  {
    if acts != [] {
      var last := acts[|acts| - 1];
      ReachableInv(legacy, acts[..|acts| - 1]);
      var w := Run(legacy, acts[..|acts| - 1]).value;
      KeepsFiles(w, last);
      KeepsCallers(w, last);
      KeepsStarts(w, last);
    }
  }

  // -------------------------------------------------------------- theorems

  /** At most once: of all calls with one native identity, whatever their epoch,
      body, order or crashes, `execute` starts for at most one, and the intent
      it started under is on disk and carries exactly its identity and body. */
  lemma AtMostOnce(legacy: Files, acts: seq<Action>, w: World)
    requires OnlyLegacy(legacy) && Run(legacy, acts) == Some(w)
    ensures forall i, j :: 0 <= i < j < |w.starts| ==> KeyOf'(w, w.starts[i]) != KeyOf'(w, w.starts[j])
    ensures forall c <- w.starts :: c in w.callers
              && Read(w.files, Stable(KeyOf(w, c)), IntentFile) ==
                 Some(Sealed(None, IntentBody(w.callers[c].identity, w.callers[c].request)))
    ensures forall c <- w.callers | Started(w.callers[c].stage) :: c in w.starts
  {
    ReachableInv(legacy, acts);
    forall i, j | 0 <= i < j < |w.starts|
      ensures KeyOf'(w, w.starts[i]) != KeyOf'(w, w.starts[j])
    {
      assert w.starts[i] in w.starts && w.starts[j] in w.starts;
    }
  }

  function KeyOf'(w: World, c: nat): Option<nat> {
    if c in w.callers then Some(KeyOf(w, c)) else None
  }

  predicate Admitted(stage: Stage) {
    stage.Publish? || InsideRun(stage)
  }

  ghost predicate LegacyFiles(legacy: Files, w: World) {
    forall dir: Dir, name: Name :: dir.Legacy? ==> Read(w.files, dir, name) == Read(legacy, dir, name)
  }

  /** Older receipts are never moved, and an identity that has one is never admitted. */
  ghost predicate LegacyInv(legacy: Files, w: World) {
    && LegacyFiles(legacy, w)
    && (forall c <- w.callers :: Admitted(w.callers[c].stage) ==> Matching(legacy, KeyOf(w, c)) == {})
    && (forall c <- w.starts :: c in w.callers && Matching(legacy, KeyOf(w, c)) == {})
  }

  lemma LegacyMatchStaysVisible(legacy: Files, w: World, native: nat)
    requires OnlyLegacy(legacy)
    requires LegacyFiles(legacy, w)
    ensures Matching(legacy, native) <= Matching(w.files, native)
  {
    forall dir <- Matching(legacy, native)
      ensures dir in Matching(w.files, native)
    {
      var p :| p in legacy.Keys && p.name.IntentFile? && legacy[p].Sealed? && legacy[p].body.IntentBody?
               && legacy[p].body.identity.native == native && p.dir == dir;
      assert Read(w.files, dir, IntentFile) == Read(legacy, dir, IntentFile);
      assert p == Path(dir, IntentFile);
    }
  }

  lemma LegacyFilesKept(legacy: Files, w: World, a: Action)
    requires Inv(w) && Enabled(w, a) && LegacyFiles(legacy, w)
    ensures LegacyFiles(legacy, Next(w, a))
  {
    if !a.Call? {
      NextFrame(w, a);
      hide Next, Inv, Enabled, Read;
    }
  }

  /** A caller that is admitted by this step had no legacy receipt. */
  lemma AdmittedWithoutLegacy(legacy: Files, w: World, a: Action)
    requires OnlyLegacy(legacy) && LegacyInv(legacy, w) && Enabled(w, a) && !a.Call?
    requires Admitted(Next(w, a).callers[a.c].stage)
    ensures Matching(legacy, KeyOf(w, a.c)) == {}
  {
    hide Read, Matching;
    if !Admitted(w.callers[a.c].stage) {
      AdmissionNeedsCleanScan(w, a);
      LegacyMatchStaysVisible(legacy, w, KeyOf(w, a.c));
    }
  }

  lemma KeepsLegacy(legacy: Files, w: World, a: Action)
    requires OnlyLegacy(legacy) && Inv(w) && LegacyInv(legacy, w) && Enabled(w, a)
    ensures LegacyInv(legacy, Next(w, a))
  {
    hide Matching, Scan, Inv, Read, LegacyFiles;
    LegacyFilesKept(legacy, w, a);
    if a.Call? {
      CallOnlyAdds(w, a);
    } else {
      KeepsUnseen(legacy, w, a);
      hide Next, Enabled, Admitted, OnlyLegacy;
    }
  }

  lemma KeepsUnseen(legacy: Files, w: World, a: Action)
    requires OnlyLegacy(legacy) && Inv(w) && LegacyInv(legacy, w) && Enabled(w, a) && !a.Call?
    ensures var w' := Next(w, a);
            && (forall c <- w'.callers :: Admitted(w'.callers[c].stage) ==> Matching(legacy, KeyOf(w', c)) == {})
            && (forall c <- w'.starts :: c in w'.callers && Matching(legacy, KeyOf(w', c)) == {})
  {
    hide Matching, Inv, Read, LegacyFiles, Enabled, OnlyLegacy, Admitted, Next;
    StartFrame(w, a);
    NextFrame(w, a);
    if a.SealIntent? { SealsFromInside(w, a); }
    if Admitted(Next(w, a).callers[a.c].stage) { AdmittedWithoutLegacy(legacy, w, a); }
  }

  lemma SealsFromInside(w: World, a: Action)
    requires Enabled(w, a) && a.SealIntent?
    ensures a.c in w.callers && Admitted(w.callers[a.c].stage)
  {
  }

  lemma AdmissionNeedsCleanScan(w: World, a: Action)
    requires Enabled(w, a) && !a.Call?
    requires Admitted(Next(w, a).callers[a.c].stage) && !Admitted(w.callers[a.c].stage)
    ensures a.ScanAll? && Matching(w.files, KeyOf(w, a.c)) == {}
  {
  }

  lemma {:induction false} ReachableLegacyInv(legacy: Files, acts: seq<Action>)
    requires OnlyLegacy(legacy) && Run(legacy, acts).Some?
    ensures LegacyInv(legacy, Run(legacy, acts).value)
    decreases |acts|
  {
    if acts != [] {
      ReachableLegacyInv(legacy, acts[..|acts| - 1]);
      ReachableInv(legacy, acts[..|acts| - 1]);
      KeepsLegacy(legacy, Run(legacy, acts[..|acts| - 1]).value, acts[|acts| - 1]);
    }
  }

  /** A native identity with a retained receipt of the older format is never executed again. */
  lemma LegacyReceiptBlocksExecution(legacy: Files, acts: seq<Action>, w: World, native: nat)
    requires OnlyLegacy(legacy) && Run(legacy, acts) == Some(w)
    requires Matching(legacy, native) != {}
    ensures forall c <- w.starts :: KeyOf'(w, c) != Some(native)
  {
    ReachableLegacyInv(legacy, acts);
  }

  /** The phases before the first write that did not complete. */
  function Visible(slots: seq<Slot>): (phases: seq<Phase>)
    ensures |phases| <= |slots|
    ensures forall i :: 0 <= i < |phases| ==> slots[i] == Whole(phases[i])
    ensures |phases| < |slots| ==> !slots[|phases|].Whole?
  {
    if slots == [] || !slots[0].Whole? then [] else [slots[0].phase] + Visible(slots[1..])
  }

  /** The phases whose writes completed, wherever they stand. */
  function Completed(slots: seq<Slot>): seq<Phase> {
    if slots == [] then []
    else
      var last := slots[|slots| - 1];
      Completed(slots[..|slots| - 1]) + if last.Whole? then [last.phase] else []
  }

  /** What a reader finds linked: the visible phases, then the one whose write was
      whole but unacknowledged if that is what came next. */
  function Seen(slots: seq<Slot>): (phases: seq<Phase>)
    ensures |phases| <= |slots|
  {
    var n := |Visible(slots)|;
    Visible(slots) + if n < |slots| && slots[n].Unacknowledged? then [slots[n].phase] else []
  }

  /** After the phases it finds linked, the reader meets a file that does not link. */
  predicate Unlinked(r: Record) {
    var n := |Seen(r.slots)|;
    if n < |r.slots| then !r.slots[n].Skipped? else r.writing
  }

  /** What a receipt shows, said from the history instead of from the files. A result
      is shown only if the phases shown are exactly the completed ones. */
  ghost function Shown(r: Record, identity: Identity): View {
    if Unlinked(r) then Unreadable
    else
      match r.outcome
      case NoResult => Receipt(r.identity, r.identity.epoch == identity.epoch, Seen(r.slots), None)
      case TornResult => Unreadable
      case Recorded(result, _) =>
        if Seen(r.slots) != Completed(r.slots) then Unreadable
        else Receipt(r.identity, r.identity.epoch == identity.epoch, Completed(r.slots), Some(result))
  }

  /** The digest that links a list of phases to an intent. */
  function Sealing(intent: Body, phases: seq<Phase>): Digest {
    if phases == [] then Digest(None, intent)
    else Digest(Some(Sealing(intent, phases[..|phases| - 1])), PhaseBody(phases[|phases| - 1]))
  }

  lemma {:induction false} LinkSeals(intent: Body, slots: seq<Slot>)
    ensures Link(intent, slots) == Sealing(intent, Completed(slots))
  {
    if slots != [] {
      LinkSeals(intent, slots[..|slots| - 1]);
      if slots[|slots| - 1].Whole? {
        assert Completed(slots)[..|Completed(slots)| - 1] == Completed(slots[..|slots| - 1]);
      } else {
        assert Completed(slots) == Completed(slots[..|slots| - 1]);
      }
    }
  }

  lemma {:induction false} SealingIsInjective(intent: Body, a: seq<Phase>, b: seq<Phase>)
    requires Sealing(intent, a) == Sealing(intent, b)
    ensures a == b
  {
    if a != [] && b != [] {
      SealingIsInjective(intent, a[..|a| - 1], b[..|b| - 1]);
      assert a == a[..|a| - 1] + [a[|a| - 1]] && b == b[..|b| - 1] + [b[|b| - 1]];
    }
  }

  /** The tip that the writer holds names exactly the phases completed so far: attempts
      that tore, were skipped or went unacknowledged leave no mark on it. */
  lemma TipNamesPhases(r: Record, n: nat, phases: seq<Phase>)
    requires n <= |r.slots|
    ensures Tip(r, n) == Sealing(IntentBody(r.identity, r.request), phases) <==> phases == Completed(r.slots[..n])
  {
    var intent := IntentBody(r.identity, r.request);
    LinkSeals(intent, r.slots[..n]);
    if Tip(r, n) == Sealing(intent, phases) {
      SealingIsInjective(intent, phases, Completed(r.slots[..n]));
    }
  }

  lemma {:induction false} VisibleIsCompleted(slots: seq<Slot>, n: nat)
    requires n <= |Visible(slots)|
    ensures Completed(slots[..n]) == Visible(slots)[..n]
  {
    if n > 0 {
      VisibleIsCompleted(slots, n - 1);
      assert slots[..n][..n - 1] == slots[..n - 1];
      assert Visible(slots)[..n] == Visible(slots)[..n - 1] + [Visible(slots)[n - 1]];
    }
  }

  /** The directory of `key` holds exactly the files of record `r`. */
  ghost predicate DirectoryOf(files: Files, key: nat, r: Record) {
    WithinBudget(r) && forall name :: Read(files, Stable(key), name) == Expected(r, name)
  }

  lemma NextTip(r: Record, n: nat)
    requires n < |r.slots|
    ensures Tip(r, n + 1) == if r.slots[n].Whole? then Digest(Some(Tip(r, n)), PhaseBody(r.slots[n].phase)) else Tip(r, n)
  {
    assert r.slots[..n + 1][..n] == r.slots[..n];
  }

  lemma PrependOne(phase: Phase, chain: Chain)
    ensures Prepend([phase], chain) == if chain.BrokenChain? then BrokenChain else Chain([phase] + chain.phases, chain.tip)
  {
  }

  function Depth(d: Digest): nat {
    if d.previous.None? then 0 else 1 + Depth(d.previous.value)
  }

  /** Past an unacknowledged phase the reader goes no further: what was written
      next links to the older tip. */
  lemma ChainAfterLost(files: Files, key: nat, r: Record, n: nat)
    requires DirectoryOf(files, key, r) && n == |Visible(r.slots)| < |r.slots| && r.slots[n].Unacknowledged?
    ensures var tip := Digest(Some(Tip(r, n)), PhaseBody(r.slots[n].phase));
            ReadChain(files, Stable(key), n + 1, tip) == if Unlinked(r) then BrokenChain else Chain([], tip)
  {
    var tip := Digest(Some(Tip(r, n)), PhaseBody(r.slots[n].phase));
    assert Depth(tip) == 1 + Depth(Tip(r, n));
    NextTip(r, n);
    hide Visible, Read, Link, ReadChain, Prepend;
    if n + 1 == PHASE_BUDGET {
      EndOfBudget(files, Stable(key), tip);
    } else {
      ChainStep(files, Stable(key), n + 1, tip);
      assert Read(files, Stable(key), PhaseFile(n + 1)) == Expected(r, PhaseFile(n + 1));
    }
  }

  /** Where the visible phases end the walk ends, or takes one unacknowledged phase more. */
  lemma ChainAtEnd(files: Files, key: nat, r: Record)
    requires DirectoryOf(files, key, r)
    ensures var n := |Visible(r.slots)|;
            ReadChain(files, Stable(key), n, Tip(r, n)) ==
            if Unlinked(r) then BrokenChain
            else Chain(Seen(r.slots)[n..], Sealing(IntentBody(r.identity, r.request), Seen(r.slots)))
  {
    var n, seen := |Visible(r.slots)|, Seen(r.slots);
    var intent := IntentBody(r.identity, r.request);
    VisibleIsCompleted(r.slots, n);
    TipNamesPhases(r, n, Visible(r.slots));
    assert seen[..n] == Visible(r.slots) && |seen| <= n + 1;
    assert |seen| == n ==> seen[n..] == [] && seen == seen[..n];
    assert |seen| > n ==> seen[n..] == [seen[n]] && seen[..|seen| - 1] == seen[..n];
    if n < |r.slots| && r.slots[n].Unacknowledged? {
      ChainAfterLost(files, key, r, n);
    }
    hide Visible, Read, Link, ReadChain, Prepend, Completed;
    if n == PHASE_BUDGET {
      EndOfBudget(files, Stable(key), Tip(r, n));
    } else {
      ChainStep(files, Stable(key), n, Tip(r, n));
      assert Read(files, Stable(key), PhaseFile(n)) == Expected(r, PhaseFile(n));
      if |seen| > n {
        PrependOne(seen[n], ReadChain(files, Stable(key), n + 1, Digest(Some(Tip(r, n)), PhaseBody(seen[n]))));
      }
    }
  }

  lemma {:induction false} ChainShown(files: Files, key: nat, r: Record, n: nat)
    requires DirectoryOf(files, key, r) && n <= |Visible(r.slots)|
    ensures ReadChain(files, Stable(key), n, Tip(r, n)) ==
            if Unlinked(r) then BrokenChain
            else Chain(Seen(r.slots)[n..], Sealing(IntentBody(r.identity, r.request), Seen(r.slots)))
    decreases |Visible(r.slots)| - n
  {
    var seen := Seen(r.slots);
    if n == |Visible(r.slots)| {
      ChainAtEnd(files, key, r);
    } else {
      assert r.slots[n] == Whole(seen[n]);
      hide Visible, Read, Link, ReadChain, Prepend, Seen;
      ChainStep(files, Stable(key), n, Tip(r, n));
      assert Read(files, Stable(key), PhaseFile(n)) == Expected(r, PhaseFile(n));
      NextTip(r, n);
      ChainShown(files, key, r, n + 1);
      PrependOne(seen[n], ReadChain(files, Stable(key), n + 1, Tip(r, n + 1)));
      assert Unlinked(r) || [seen[n]] + seen[n + 1..] == seen[n..];
    }
  }

  lemma ShownByInspect(files: Files, key: nat, r: Record, identity: Identity, request: Option<Request>, mutation: bool)
    requires DirectoryOf(files, key, r) && r.published && r.identity.native == identity.native == key
    ensures Inspect(files, Stable(key), identity, request, mutation) ==
            if mutation && r.identity.epoch != identity.epoch then WrongEpoch
            else if request.Some? && request.value != r.request then Conflict
            else Shown(r, identity)
  {
    hide ReadChain, Visible, Seen, Tip, Read, Sealing, Completed;
    assert Read(files, Stable(key), IntentFile) == Expected(r, IntentFile);
    assert Read(files, Stable(key), ResultFile) == Expected(r, ResultFile);
    FirstTip(r);
    ChainShown(files, key, r, 0);
    TipNamesPhases(r, |r.slots|, Seen(r.slots));
    assert r.slots[..|r.slots|] == r.slots;
  }

  lemma FirstTip(r: Record)
    ensures Tip(r, 0) == Digest(None, IntentBody(r.identity, r.request))
  {
  }

  /** A receipt read by anyone shows the phases that its one executor completed before
      its first incomplete write, then at most the one phase whose write was whole when
      it threw, or refuses to be read; with a result it shows exactly the completed
      phases, and where nothing ever started it is empty. A different epoch or body is
      answered without a view. */
  lemma ReceiptIsTruthful(legacy: Files, acts: seq<Action>, w: World, key: nat, identity: Identity, request: Option<Request>, mutation: bool)
    requires OnlyLegacy(legacy) && Run(legacy, acts) == Some(w)
    requires key in w.records && w.records[key].published && identity.native == key
    ensures var r := w.records[key];
            Inspect(w.files, Stable(key), identity, request, mutation) ==
            if mutation && r.identity.epoch != identity.epoch then WrongEpoch
            else if request.Some? && request.value != r.request then Conflict
            else if r.holder in w.starts then Shown(r, identity)
            else Receipt(r.identity, r.identity.epoch == identity.epoch, [], None)
  {
    ReachableInv(legacy, acts);
    ShownByInspect(w.files, key, w.records[key], identity, request, mutation);
  }

  /** The first phase write that did not complete left its file whole. */
  ghost predicate FirstFailureLeftFile(slots: seq<Slot>) {
    exists i :: 0 <= i < |slots| && slots[i].Unacknowledged? && forall j :: 0 <= j < i ==> slots[j].Whole?
  }

  lemma SeenIsVisible(slots: seq<Slot>)
    ensures Seen(slots) == Visible(slots) <==> !FirstFailureLeftFile(slots)
  {
    var n := |Visible(slots)|;
    if FirstFailureLeftFile(slots) {
      var i :| 0 <= i < |slots| && slots[i].Unacknowledged? && forall j :: 0 <= j < i ==> slots[j].Whole?;
      assert i == n;
      assert |Seen(slots)| == n + 1;
    }
    if n < |slots| && slots[n].Unacknowledged? {
      assert FirstFailureLeftFile(slots);
    }
  }

  /** A receipt that can be read shows exactly the phases completed before the first
      failure if and only if that failure left no whole file behind. */
  lemma ShowsCompletedExactly(legacy: Files, acts: seq<Action>, w: World, key: nat, identity: Identity, request: Option<Request>, mutation: bool)
    requires OnlyLegacy(legacy) && Run(legacy, acts) == Some(w)
    requires key in w.records && w.records[key].published && identity.native == key && w.records[key].holder in w.starts
    requires Inspect(w.files, Stable(key), identity, request, mutation).Receipt?
    ensures Inspect(w.files, Stable(key), identity, request, mutation).phases == Visible(w.records[key].slots) <==>
            !FirstFailureLeftFile(w.records[key].slots)
  {
    ReceiptIsTruthful(legacy, acts, w, key, identity, request, mutation);
    hide Run, Inspect, Seen, Visible, Completed, FirstFailureLeftFile;
    SeenIsVisible(w.records[key].slots);
  }

  lemma RunSnoc(legacy: Files, acts: seq<Action>, w: World, a: Action)
    requires Run(legacy, acts) == Some(w) && Enabled(w, a)
    ensures Run(legacy, acts + [a]) == Some(Next(w, a))
  {
    assert (acts + [a])[..|acts|] == acts;
  }

  /** A phase whose write throws when its file is whole is shown by the receipt, although
      the executor never completed it: from every state in which it can be written first. */
  lemma UnsyncedPhaseIsShown(legacy: Files, acts: seq<Action>, w: World, c: nat, phase: Phase)
    requires OnlyLegacy(legacy) && Run(legacy, acts) == Some(w) && Running(w, c) && w.callers[c].stage.Executing?
    requires KeyOf(w, c) in w.records
    requires var slots := w.records[KeyOf(w, c)].slots; |Visible(slots)| == |slots| < PHASE_BUDGET
    ensures var run, key, caller := acts + [BeginPhase(c, phase)] + [LosePhase(c)], KeyOf(w, c), w.callers[c];
            && Run(legacy, run).Some? && key in Run(legacy, run).value.records
            && var w', done := Run(legacy, run).value, Completed(w.records[key].slots);
               && Completed(w'.records[key].slots) == done
               && Inspect(w'.files, Stable(key), caller.identity, Some(caller.request), true) ==
                  Receipt(caller.identity, true, done + [phase], None)
  {
    hide Run, Inspect, Visible, Completed, Seen;
    ReachableInv(legacy, acts);
    assert CallerInv(w, c);
    var r := w.records[KeyOf(w, c)];
    RunSnoc(legacy, acts, w, BeginPhase(c, phase));
    var mid := Next(w, BeginPhase(c, phase));
    RunSnoc(legacy, acts + [BeginPhase(c, phase)], mid, LosePhase(c));
    var w' := Next(mid, LosePhase(c));
    assert w'.records[KeyOf(w, c)] == r.(slots := r.slots + [Unacknowledged(phase)]);
    LostIsSeen(r.slots, phase);
    assert c in w'.starts && r.outcome.NoResult? && r.published && !Unlinked(w'.records[KeyOf(w, c)]);
    ReceiptIsTruthful(legacy, acts + [BeginPhase(c, phase)] + [LosePhase(c)], w', KeyOf(w, c), w.callers[c].identity,
                      Some(w.callers[c].request), true);
  }

  lemma {:induction false} VisibleAppend(slots: seq<Slot>, slot: Slot)
    ensures Visible(slots + [slot]) ==
            if |Visible(slots)| == |slots| && slot.Whole? then Visible(slots) + [slot.phase] else Visible(slots)
    decreases |slots|
  {
    if slots == [] {
      assert slots + [slot] == [slot] && [slot][1..] == [];
    } else if slots[0].Whole? {
      assert (slots + [slot])[1..] == slots[1..] + [slot];
      VisibleAppend(slots[1..], slot);
      if |Visible(slots)| == |slots| && slot.Whole? {
        assert [slots[0].phase] + (Visible(slots[1..]) + [slot.phase]) == ([slots[0].phase] + Visible(slots[1..])) + [slot.phase];
      }
    }
  }

  lemma LostIsSeen(slots: seq<Slot>, phase: Phase)
    requires |Visible(slots)| == |slots|
    ensures var more := slots + [Unacknowledged(phase)];
            Completed(more) == Completed(slots) && Seen(more) == Completed(slots) + [phase] && |Seen(more)| == |more|
  {
    var more := slots + [Unacknowledged(phase)];
    assert more[..|more| - 1] == slots && slots[..|slots|] == slots;
    VisibleAppend(slots, Unacknowledged(phase));
    VisibleIsCompleted(slots, |slots|);
    assert Visible(slots)[..|slots|] == Visible(slots);
    hide Visible;
  }

  /** The steps of a call that nothing stands against, up to the start of `execute`. */
  function Admission(c: nat): seq<Action> {
    [ReadOwn(c), ScanAll(c, true), CreateIntent(c), SealIntent(c)]
  }

  /** A new call does execute, from any reachable state, when its native identity has
      no receipt of either format and every intent can be read. */
  lemma UnopposedCallExecutes(legacy: Files, acts: seq<Action>, w: World, c: nat, identity: Identity, request: Request)
    requires OnlyLegacy(legacy) && Run(legacy, acts) == Some(w) && c !in w.callers
    requires Read(w.files, Stable(identity.native), IntentFile) == None && Scan(w.files, identity.native) == NotFound
    ensures var all := acts + [Call(c, identity, request, false)] + Admission(c);
            Run(legacy, all).Some? && c in Run(legacy, all).value.starts
  {
    hide Scan, Run;
    var call, t := Call(c, identity, request, false), Admission(c);
    RunSnoc(legacy, acts, w, call);
    var run, at := acts + [call], Next(w, call);
    RunSnoc(legacy, run, at, t[0]);
    run, at := run + [t[0]], Next(at, t[0]);
    RunSnoc(legacy, run, at, t[1]);
    run, at := run + [t[1]], Next(at, t[1]);
    RunSnoc(legacy, run, at, t[2]);
    run, at := run + [t[2]], Next(at, t[2]);
    RunSnoc(legacy, run, at, t[3]);
    assert acts + [call] + t == run + [t[3]];
  }
}
