/** The incremental newline framer of a bound bridge connection.

    `Emissions` is the specification: cut the bytes received so far at every
    newline and judge each piece against the cap.  `Connection.Data` is the
    incremental machine over `carry`, `start` and `dropping`; it is proved to
    have emitted exactly `Emissions` of everything received, however the bytes
    were cut into chunks. */
module BridgeFramer {
  type Byte = b: int | 0 <= b < 256

  const NEWLINE: Byte := 0x0a

  /** What the connection does with one line: dispatch it, or answer
      REQUEST_TOO_LARGE.  Emissions are in the order of receipt, which is not the
      order of replies: an over-cap answer is written to the socket at once, while a
      dispatched frame waits for the frames before it to be answered. */
  datatype Emission = Frame(line: seq<Byte>) | OverCap

  function Judge(line: seq<Byte>, cap: nat): Emission {
    if |line| > cap then OverCap else Frame(line)
  }

  /** Position of the first newline at or after `start`, or |s| when there is none. */
  function NextNewline(s: seq<Byte>, start: nat): (nl: nat)
    requires start <= |s|
    ensures start <= nl <= |s|
    ensures nl < |s| ==> s[nl] == NEWLINE
    ensures forall k :: start <= k < nl ==> s[k] != NEWLINE
    decreases |s| - start
  {
    if start == |s| || s[start] == NEWLINE then start else NextNewline(s, start + 1)
  }

  ghost predicate NewlineFree(s: seq<Byte>) {
    forall k :: 0 <= k < |s| ==> s[k] != NEWLINE
  }

  /** The verdicts on the newline-terminated lines of `s`. */
  ghost function Complete(s: seq<Byte>, cap: nat): seq<Emission>
    decreases |s|
  {
    var nl := NextNewline(s, 0);
    if nl == |s| then [] else [Judge(s[..nl], cap)] + Complete(s[nl + 1..], cap)
  }

  /** The unterminated remainder of `s`. */
  ghost function Rest(s: seq<Byte>): (r: seq<Byte>)
    ensures |r| <= |s|
    decreases |s|
  {
    var nl := NextNewline(s, 0);
    if nl == |s| then s else Rest(s[nl + 1..])
  }

  /** Everything a connection must have emitted after receiving `s`: one verdict
      per terminated line, and one error as soon as the unterminated rest is
      over the cap. */
  ghost function Emissions(s: seq<Byte>, cap: nat): seq<Emission> {
    Complete(s, cap) + if |Rest(s)| > cap then [OverCap] else []
  }

  lemma NextNewlineUnique(s: seq<Byte>, start: nat, nl: nat)
    requires start <= nl <= |s|
    requires nl < |s| ==> s[nl] == NEWLINE
    requires forall k :: start <= k < nl ==> s[k] != NEWLINE
    ensures NextNewline(s, start) == nl
    decreases nl - start
  {
    if start < nl {
      NextNewlineUnique(s, start + 1, nl);
    }
  }

  /** Cutting a stream at any byte position loses nothing: the lines of the
      whole are those of the first part, then those of its carried rest
      followed by the second part. */
  lemma {:induction false} CutAnywhere(s: seq<Byte>, t: seq<Byte>, cap: nat)
    ensures Complete(s + t, cap) == Complete(s, cap) + Complete(Rest(s) + t, cap)
    ensures Rest(s + t) == Rest(Rest(s) + t)
    decreases |s|
  {
    var nl := NextNewline(s, 0);
    if nl < |s| {
      NextNewlineUnique(s + t, 0, nl);
      assert (s + t)[..nl] == s[..nl];
      assert (s + t)[nl + 1..] == s[nl + 1..] + t;
      CutAnywhere(s[nl + 1..], t, cap);
    }
  }

  lemma {:induction false} RestIsNewlineFree(s: seq<Byte>)
    ensures NewlineFree(Rest(s))
    decreases |s|
  {
    var nl := NextNewline(s, 0);
    if nl < |s| {
      RestIsNewlineFree(s[nl + 1..]);
    }
  }

  /** The next line of `skip + buffer[start..]`, when `skip` holds no newline and
      `buffer` has one at `nl`. */
  lemma ConsumeLine(skip: seq<Byte>, buffer: seq<Byte>, start: nat, nl: nat, cap: nat)
    requires NewlineFree(skip)
    requires start <= nl < |buffer| && nl == NextNewline(buffer, start)
    ensures var todo := skip + buffer[start..];
            && Complete(todo, cap) == [Judge(skip + buffer[start..nl], cap)] + Complete(buffer[nl + 1..], cap)
            && Rest(todo) == Rest(buffer[nl + 1..])
  {
    var todo := skip + buffer[start..];
    var at := |skip| + nl - start;
    NextNewlineUnique(todo, 0, at);
    assert todo[..at] == skip + buffer[start..nl];
    assert todo[at + 1..] == buffer[nl + 1..];
  }

  /** No line is left when neither `skip` nor `buffer[start..]` holds a newline. */
  lemma NoLineLeft(skip: seq<Byte>, buffer: seq<Byte>, start: nat, cap: nat)
    requires NewlineFree(skip)
    requires start <= |buffer| && NextNewline(buffer, start) == |buffer|
    ensures var todo := skip + buffer[start..];
            Complete(todo, cap) == [] && Rest(todo) == todo
  {
    var todo := skip + buffer[start..];
    NextNewlineUnique(todo, 0, |todo|);
  }

  /** How far the loop of one data event has come: `skip` is the already
      discarded head of an over-cap line, `todo` the bytes still to scan. */
  ghost predicate Progress(received: seq<Byte>, skip: seq<Byte>, todo: seq<Byte>, dropping: bool, emitted: seq<Emission>, cap: nat) {
    && NewlineFree(skip)
    && (if dropping then |skip| > cap else skip == [])
    && Rest(skip + todo) == Rest(received)
    && exists done: seq<Emission> ::
         && done + Complete(skip + todo, cap) == Complete(received, cap)
         && emitted == done + if dropping then [OverCap] else []
  }

  lemma StartEvent(before: seq<Byte>, chunk: seq<Byte>, skip: seq<Byte>, todo: seq<Byte>, dropping: bool, emitted: seq<Emission>, cap: nat)
    requires dropping == (|Rest(before)| > cap) && emitted == Emissions(before, cap)
    requires skip == (if dropping then Rest(before) else []) && skip + todo == Rest(before) + chunk
    ensures Progress(before + chunk, skip, todo, dropping, emitted, cap)
  {
    RestIsNewlineFree(before);
    CutAnywhere(before, chunk, cap);
    assert Complete(before, cap) + Complete(skip + todo, cap) == Complete(before + chunk, cap);
  }

  lemma TakeLine(received: seq<Byte>, skip: seq<Byte>, buffer: seq<Byte>, start: nat, nl: nat,
                 dropping: bool, emitted: seq<Emission>, cap: nat)
    requires start <= nl < |buffer| && nl == NextNewline(buffer, start)
    requires Progress(received, skip, buffer[start..], dropping, emitted, cap)
    ensures Progress(received, [], buffer[nl + 1..], false,
                     if dropping then emitted else emitted + [Judge(buffer[start..nl], cap)], cap)
  {
    hide Complete, Rest, NextNewline;
    ConsumeLine(skip, buffer, start, nl, cap);
    var rest := Complete(buffer[nl + 1..], cap);
    var done: seq<Emission> :| done + Complete(skip + buffer[start..], cap) == Complete(received, cap)
                            && emitted == done + if dropping then [OverCap] else [];
    var verdict := [Judge(skip + buffer[start..nl], cap)];
    assert [] + buffer[start..nl] == buffer[start..nl] && [] + buffer[nl + 1..] == buffer[nl + 1..];
    assert done + (verdict + rest) == (done + verdict) + rest;
  }

  lemma EndEvent(received: seq<Byte>, skip: seq<Byte>, buffer: seq<Byte>, start: nat,
                 dropping: bool, emitted: seq<Emission>, cap: nat)
    requires start <= |buffer| && NextNewline(buffer, start) == |buffer|
    requires Progress(received, skip, buffer[start..], dropping, emitted, cap)
    ensures var tail := buffer[start..];
            && (dropping ==> |Rest(received)| > cap && emitted == Emissions(received, cap))
            && (!dropping ==> Rest(received) == tail)
            && (!dropping ==> Emissions(received, cap) == if |tail| > cap then emitted + [OverCap] else emitted)
  {
    NoLineLeft(skip, buffer, start, cap);
  }

  function Flatten(chunks: seq<seq<Byte>>): seq<Byte> {
    if chunks == [] then [] else Flatten(chunks[..|chunks| - 1]) + chunks[|chunks| - 1]
  }

  /** One bound connection.  `emitted` is the ordered record of dispatched
      frames and over-cap answers; `received` is history only. */
  class Connection {
    const cap: nat
    var carry: seq<Byte>
    var dropping: bool
    var emitted: seq<Emission>
    ghost var received: seq<Byte>

    ghost predicate Valid()
      reads this
    {
      && emitted == Emissions(received, cap)
      && dropping == (|Rest(received)| > cap)
      && carry == if dropping then [] else Rest(received)
    }

    constructor (cap: nat)
      ensures Valid()
      ensures this.cap == cap && received == [] && emitted == []
    {
      this.cap := cap;
      carry, dropping, emitted, received := [], false, [], [];
    }

    /** One `data` event. */
    method Data(chunk: seq<Byte>)
      requires Valid()
      modifies this
      ensures Valid()
      ensures received == old(received) + chunk
      ensures |carry| <= cap
    {
      hide Complete, Rest, NextNewline, Progress, NewlineFree;
      ghost var skip := if dropping then Rest(received) else [];
      var buffer := if |carry| == 0 then chunk else carry + chunk;
      assert skip + buffer[0..] == Rest(received) + chunk;
      StartEvent(received, chunk, skip, buffer[0..], dropping, emitted, cap);
      received := received + chunk;
      carry := buffer;
      var start := 0;
      while true
        invariant carry == buffer && start <= |buffer| && received == old(received) + chunk
        invariant Progress(received, skip, buffer[start..], dropping, emitted, cap)
        decreases |buffer| - start
      {
        var nl := NextNewline(carry, start);
        if nl == |carry| {
          EndEvent(received, skip, carry, start, dropping, emitted, cap);
          if dropping {
            carry := [];
            return;
          }
          var tail := carry[start..];
          if |tail| > cap {
            dropping := true;
            emitted := emitted + [OverCap];
            carry := [];
          } else {
            carry := tail;
          }
          return;
        }
        TakeLine(received, skip, carry, start, nl, dropping, emitted, cap);
        skip := [];
        if dropping {
          start := nl + 1;
          dropping := false;
          continue;
        }
        var line := carry[start..nl];
        start := nl + 1;
        if |line| > cap {
          emitted := emitted + [OverCap];
          continue;
        }
        emitted := emitted + [Frame(line)];
      }
    }

    /** Any sequence of data events: what is emitted is a function of the
        concatenated bytes alone. */
    method Feed(chunks: seq<seq<Byte>>)
      requires Valid() && received == []
      modifies this
      ensures Valid()
      ensures received == Flatten(chunks)
      ensures emitted == Emissions(Flatten(chunks), cap)
    {
      for i := 0 to |chunks|
        invariant Valid() && received == Flatten(chunks[..i])
      {
        Data(chunks[i]);
        assert chunks[..i + 1][..i] == chunks[..i];
      }
      assert chunks[..|chunks|] == chunks;
    }
  }

  ghost function Join(lines: seq<seq<Byte>>): seq<Byte> {
    if lines == [] then [] else lines[0] + [NEWLINE] + Join(lines[1..])
  }

  ghost function Verdicts(lines: seq<seq<Byte>>, cap: nat): seq<Emission> {
    if lines == [] then [] else [Judge(lines[0], cap)] + Verdicts(lines[1..], cap)
  }

  /** Sending any newline-free lines, each closed by a newline, yields exactly
      one verdict per line, in order, and nothing else. */
  lemma {:induction false} JoinedLinesAreJudgedOnce(lines: seq<seq<Byte>>, cap: nat)
    requires forall i :: 0 <= i < |lines| ==> NewlineFree(lines[i])
    ensures Complete(Join(lines), cap) == Verdicts(lines, cap)
    ensures Rest(Join(lines)) == []
    ensures Emissions(Join(lines), cap) == Verdicts(lines, cap)
    decreases |lines|
  {
    if lines != [] {
      var s := Join(lines);
      var n := |lines[0]|;
      assert s == lines[0] + [NEWLINE] + Join(lines[1..]);
      NextNewlineUnique(s, 0, n);
      ConsumeLine([], s, 0, n, cap);
      assert [] + s[0..] == s && [] + s[0..n] == lines[0];
      assert s[n + 1..] == Join(lines[1..]);
      JoinedLinesAreJudgedOnce(lines[1..], cap);
    }
  }

  /** Two chunkings of the same bytes leave two connections indistinguishable:
      same frames and errors so far, same carry, same dropping state. */
  method SameBytesSameState(cap: nat, xs: seq<seq<Byte>>, ys: seq<seq<Byte>>) returns (a: Connection, b: Connection)
    requires Flatten(xs) == Flatten(ys)
    ensures a.emitted == b.emitted && a.carry == b.carry && a.dropping == b.dropping
  {
    a := new Connection(cap);
    a.Feed(xs);
    b := new Connection(cap);
    b.Feed(ys);
  }
}
