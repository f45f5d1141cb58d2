/** Paging through one section of an assignment's workflow. */
module DeskPaging {
  import opened Options
  import opened DeskLedger
  import opened DeskStore

  const HISTORY_BOUND: nat := 16384
  const PAGE_BOUND: nat := 50

  datatype Cursor = Cursor(asg: Id, revision: nat, section: nat, offset: nat)

  datatype Request = Request(asg: Id, section: nat, expectedLedger: Option<nat>, expectedBrief: Option<nat>, cursor: Option<Cursor>, limit: nat)

  /** The request shape: a continuation pins its ledger revision and keeps its section. */
  predicate WellFormed(r: Request) {
    && 1 <= r.limit <= PAGE_BOUND
    && (r.cursor.Some? ==> r.expectedLedger == Some(r.cursor.value.revision) && r.cursor.value.section == r.section)
  }

  datatype Reply<T> =
    | InvalidRequest
    | Moved
    | Page(items: seq<T>, total: nat, omittedBefore: nat, omittedAfter: nat, next: Option<Cursor>)

  /** One page of a section's items at a ledger revision and operative brief. */
  function Project<T>(items: seq<T>, revision: nat, brief: nat, r: Request): Reply<T> {
    if !WellFormed(r) then InvalidRequest
    else if r.expectedLedger.Some? && r.expectedLedger.value != revision then Moved
    else if r.expectedBrief.Some? && r.expectedBrief.value != brief then Moved
    else if r.cursor.Some? && (r.cursor.value.asg != r.asg || r.cursor.value.section != r.section || r.cursor.value.revision != revision)
    then Moved
    else if |items| > HISTORY_BOUND then InvalidRequest
    else
      var offset := if r.cursor.Some? then r.cursor.value.offset else 0;
      if offset > |items| then InvalidRequest
      else
        var end := if offset + r.limit < |items| then offset + r.limit else |items|;
        Page(items[offset..end], |items|, offset, |items| - end,
             if end < |items| then Some(Cursor(r.asg, revision, r.section, end)) else None)
  }

  /** The parts of a page always add up to the whole section. */
  lemma PagesAddUp<T>(items: seq<T>, revision: nat, brief: nat, r: Request)
    requires Project(items, revision, brief, r).Page?
    ensures var p := Project(items, revision, brief, r);
            && p.omittedBefore + |p.items| + p.omittedAfter == p.total == |items|
            && p.items == items[p.omittedBefore..p.total - p.omittedAfter]
            && (p.next.Some? <==> p.omittedAfter > 0)
            && (p.next.Some? ==> p.items != [] && p.next.value.offset == p.omittedBefore + |p.items|)
  {
  }

  /** Follow `next` from the first page, one page size per step. */
  method WalkSection<T>(items: seq<T>, revision: nat, brief: nat, asg: Id, section: nat, limit: nat) returns (seen: seq<T>, pages: nat)
    requires 1 <= limit <= PAGE_BOUND && |items| <= HISTORY_BOUND
    ensures seen == items
    ensures pages * limit >= |items| && (pages - 1) * limit <= |items| && pages >= 1
  {
    var reply := Project(items, revision, brief, Request(asg, section, None, None, None, limit));
    seen, pages := reply.items, 1;
    while reply.next.Some?
      invariant reply.Page? && 1 <= pages
      invariant seen == items[..|items| - reply.omittedAfter]
      invariant reply.next.Some? <==> |seen| < |items|
      invariant reply.next.Some? ==> reply.next.value == Cursor(asg, revision, section, |seen|) && |seen| == pages * limit
      invariant reply.next.None? ==> (pages - 1) * limit <= |items| <= pages * limit
      decreases reply.omittedAfter
    {
      reply := Project(items, revision, brief, Request(asg, section, Some(revision), None, reply.next, limit));
      seen := seen + reply.items;
      pages := pages + 1;
    }
  }

  lemma {:induction false} RevisionCountsChanges(d: Desk, l: Ledger, acts: seq<Action>)
    requires Run(d, l, acts).Some?
    ensures l.revision <= Run(d, l, acts).value.revision
    ensures Run(d, l, acts).value.revision == l.revision ==> Run(d, l, acts).value == l
    decreases |acts|
  {
    if acts != [] {
      var before := acts[..|acts| - 1];
      RevisionCountsChanges(d, l, before);
      OneChange(d, Run(d, l, before).value, acts[|acts| - 1]);
    }
  }

  lemma OneChange(d: Desk, l: Ledger, a: Action)
    ensures Next(d, l, a) == l || Next(d, l, a).revision == l.revision + 1
  {
    hide Decide, Apply;
  }

  /** After any committed change, continuing a walk begun before it is a conflict. */
  lemma ChangeEndsTheWalk<T>(d: Desk, l: Ledger, acts: seq<Action>, l': Ledger, items: seq<T>, brief: nat, r: Request)
    requires Run(d, l, acts) == Some(l') && l' != l
    requires WellFormed(r) && r.cursor.Some? && r.cursor.value.revision == l.revision
    ensures Project(items, l'.revision, brief, r) == Moved
  {
    RevisionCountsChanges(d, l, acts);
  }
}
