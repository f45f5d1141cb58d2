/** Placing owned profiles in a profile array without disturbing the others. */
module ConfigSlots {
  import opened Options
  import opened ConfigDocument

  /** Insert `value` before position `at`, or at the end. */
  function Splice(entries: seq<Json>, at: nat, value: Json): seq<Json> {
    var i := if at <= |entries| then at else |entries|;
    entries[..i] + [value] + entries[i..]
  }

  function InsertSorted(slots: seq<Slot>, slot: Slot): seq<Slot> {
    if slots == [] || slots[|slots| - 1].index <= slot.index then slots + [slot]
    else InsertSorted(slots[..|slots| - 1], slot) + [slots[|slots| - 1]]
  }

  function SortSlots(slots: seq<Slot>): seq<Slot> {
    if slots == [] then [] else InsertSorted(SortSlots(slots[..|slots| - 1]), slots[|slots| - 1])
  }

  function SpliceAll(entries: seq<Json>, slots: seq<Slot>): seq<Json> {
    if slots == [] then entries
    else Splice(SpliceAll(entries, slots[..|slots| - 1]), slots[|slots| - 1].index, slots[|slots| - 1].value)
  }

  /** The array with the owned profiles taken out and the slots put in. */
  function ApplyOwnedSlots(base: seq<Json>, slots: seq<Slot>): seq<Json> {
    SpliceAll(Strip(base), SortSlots(slots))
  }

  /** The splice loop. */
  method SpliceOwnedSlots(base: seq<Json>, slots: seq<Slot>) returns (result: seq<Json>)
    ensures result == ApplyOwnedSlots(base, slots)
  {
    result := Strip(base);
    var sorted := SortSlots(slots);
    for i := 0 to |sorted|
      invariant result == SpliceAll(Strip(base), sorted[..i])
    {
      assert sorted[..i + 1][..i] == sorted[..i];
      var at := if sorted[i].index <= |result| then sorted[i].index else |result|;
      result := result[..at] + [sorted[i].value] + result[at..];
    }
    assert sorted[..|sorted|] == sorted;
  }

  // ------------------------------------------------------------ well-placed

  /** Slots in index order, each reachable by filling the ones before it first. */
  predicate Placed(slots: seq<Slot>, foreign: nat) {
    && (forall i :: 0 <= i < |slots| ==> IsOwnedProfile(slots[i].value) && slots[i].index <= foreign + i)
    && (forall i, j :: 0 <= i < j < |slots| ==> slots[i].index < slots[j].index)
  }

  lemma {:induction false} PlacedIsSorted(slots: seq<Slot>, foreign: nat)
    requires Placed(slots, foreign)
    ensures SortSlots(slots) == slots
  {
    if slots != [] {
      var init, last := slots[..|slots| - 1], slots[|slots| - 1];
      PlacedIsSorted(init, foreign);
      assert init != [] ==> init[|init| - 1] == slots[|slots| - 2];
      hide Placed;
      assert InsertSorted(init, last) == init + [last];
    }
  }

  lemma {:induction false} StripConcat(a: seq<Json>, b: seq<Json>)
    ensures Strip(a + b) == Strip(a) + Strip(b)
    decreases |b|
  {
    if b == [] {
      assert a + b == a;
    } else {
      assert (a + b)[..|a + b| - 1] == a + b[..|b| - 1];
      StripConcat(a, b[..|b| - 1]);
    }
  }

  predicate Foreign(entries: seq<Json>) {
    forall i :: 0 <= i < |entries| ==> !IsOwnedProfile(entries[i])
  }

  lemma {:induction false} ForeignStays(entries: seq<Json>)
    requires Foreign(entries)
    ensures Strip(entries) == entries && SlotsOf(entries) == []
  {
    if entries != [] {
      ForeignStays(entries[..|entries| - 1]);
    }
  }

  lemma {:induction false} StripIsForeign(entries: seq<Json>)
    ensures Foreign(Strip(entries)) && |Strip(entries)| + |SlotsOf(entries)| == |entries|
  {
    if entries != [] { StripIsForeign(entries[..|entries| - 1]); }
  }

  lemma {:induction false} SlotsBeforeForeign(a: seq<Json>, b: seq<Json>)
    requires Foreign(b)
    ensures SlotsOf(a + b) == SlotsOf(a)
    decreases |b|
  {
    if b == [] {
      assert a + b == a;
    } else {
      assert (a + b)[..|a + b| - 1] == a + b[..|b| - 1];
      SlotsBeforeForeign(a, b[..|b| - 1]);
    }
  }

  lemma Snoc(entries: seq<Json>, last: Json)
    ensures Strip(entries + [last]) == if IsOwnedProfile(last) then Strip(entries) else Strip(entries) + [last]
    ensures SlotsOf(entries + [last]) == if IsOwnedProfile(last) then SlotsOf(entries) + [Slot(|entries|, last)] else SlotsOf(entries)
  {
    assert (entries + [last])[..|entries|] == entries;
  }

  predicate SlotAt(entries: seq<Json>, slot: Slot) {
    slot.index < |entries| && entries[slot.index] == slot.value && IsOwnedProfile(slot.value)
  }

  /** A slot is exactly an owned profile and its place. */
  lemma {:induction false} SlotMeans(entries: seq<Json>, slot: Slot)
    ensures slot in SlotsOf(entries) <==> SlotAt(entries, slot)
  {
    if entries != [] {
      var init, last := entries[..|entries| - 1], entries[|entries| - 1];
      SlotMeans(init, slot);
      assert entries == init + [last];
      Snoc(init, last);
    }
  }

  lemma SlotsAreThere(entries: seq<Json>)
    ensures Placed(SlotsOf(entries), |Strip(entries)|)
    ensures forall slot :: slot in SlotsOf(entries) <==> SlotAt(entries, slot)
  {
    forall slot
      ensures slot in SlotsOf(entries) <==> SlotAt(entries, slot)
    {
      SlotMeans(entries, slot);
    }
    SlotsArePlaced(entries);
  }

  lemma {:induction false} SlotsArePlaced(entries: seq<Json>)
    ensures Placed(SlotsOf(entries), |Strip(entries)|)
  {
    if entries != [] {
      var init, last := entries[..|entries| - 1], entries[|entries| - 1];
      SlotsArePlaced(init);
      StripIsForeign(init);
      assert entries == init + [last];
      Snoc(init, last);
      forall k | 0 <= k < |SlotsOf(init)|
        ensures SlotsOf(init)[k].index < |init|
      {
        SlotMeans(init, SlotsOf(init)[k]);
      }
      hide Strip, SlotsOf, Foreign;
    }
  }

  /** Everything from the last slot's place on is foreign before it is filled. */
  lemma TailIsForeign(entries: seq<Json>, at: nat)
    requires at <= |entries| && forall slot <- SlotsOf(entries) :: slot.index < at
    ensures Foreign(entries[at..]) && SlotsOf(entries[..at]) == SlotsOf(entries) && Strip(entries[..at]) + entries[at..] == Strip(entries)
  {
    SlotsAreThere(entries);
    forall i | at <= i < |entries|
      ensures !IsOwnedProfile(entries[i])
    {
      assert SlotAt(entries, Slot(i, entries[i])) <==> Slot(i, entries[i]) in SlotsOf(entries);
    }
    assert entries == entries[..at] + entries[at..];
    SlotsBeforeForeign(entries[..at], entries[at..]);
    ForeignStays(entries[at..]);
    StripConcat(entries[..at], entries[at..]);
  }

  /** Filling one more place beyond all the filled ones. */
  lemma OneMoreLands(mid: seq<Json>, last: Slot)
    requires IsOwnedProfile(last.value) && last.index <= |mid| && forall slot <- SlotsOf(mid) :: slot.index < last.index
    ensures var result := Splice(mid, last.index, last.value);
            Strip(result) == Strip(mid) && SlotsOf(result) == SlotsOf(mid) + [last] && |result| == |mid| + 1
  {
    TailIsForeign(mid, last.index);
    var head, tail := mid[..last.index], mid[last.index..];
    assert Splice(mid, last.index, last.value) == head + [last.value] + tail;
    hide Strip, SlotsOf, Foreign, IsOwnedProfile;
    Snoc(head, last.value);
    SlotsBeforeForeign(head + [last.value], tail);
    StripConcat(head + [last.value], tail);
    ForeignStays(tail);
  }

  /** Well-placed slots are found again at exactly their recorded places, and the
      foreign profiles keep their order. */
  lemma {:induction false} SlotsLandInPlace(foreign: seq<Json>, slots: seq<Slot>)
    requires Foreign(foreign) && Placed(slots, |foreign|)
    ensures var result := SpliceAll(foreign, slots);
            Strip(result) == foreign && SlotsOf(result) == slots && |result| == |foreign| + |slots|
  {
    if slots == [] {
      ForeignStays(foreign);
    } else {
      var before, last := slots[..|slots| - 1], slots[|slots| - 1];
      SlotsLandInPlace(foreign, before);
      hide Strip, SlotsOf, Foreign, Splice, IsOwnedProfile;
      OneMoreLands(SpliceAll(foreign, before), last);
      assert slots == before + [last];
    }
  }

  /** An array is determined by its foreign profiles and its slots. */
  lemma {:induction false} StripAndSlotsDetermine(x: seq<Json>, y: seq<Json>)
    requires Strip(x) == Strip(y) && SlotsOf(x) == SlotsOf(y)
    ensures x == y
    decreases |x|
  {
    StripIsForeign(x);
    StripIsForeign(y);
    if x != [] {
      var n := |x| - 1;
      LastIsOwned(x, y, n);
      SnocParts(x, y, n);
      StripAndSlotsDetermine(x[..n], y[..n]);
      assert x == x[..n] + [x[n]] && y == y[..n] + [y[n]];
    }
  }

  lemma LastIsOwned(x: seq<Json>, y: seq<Json>, n: nat)
    requires |x| == |y| == n + 1 && SlotsOf(x) == SlotsOf(y)
    ensures IsOwnedProfile(x[n]) == IsOwnedProfile(y[n])
  {
    SlotsAreThere(x);
    SlotsAreThere(y);
    assert SlotAt(x, Slot(n, x[n])) <==> SlotAt(y, Slot(n, x[n]));
    assert SlotAt(x, Slot(n, y[n])) <==> SlotAt(y, Slot(n, y[n]));
  }

  lemma SnocParts(x: seq<Json>, y: seq<Json>, n: nat)
    requires |x| == |y| == n + 1 && Strip(x) == Strip(y) && SlotsOf(x) == SlotsOf(y) && IsOwnedProfile(x[n]) == IsOwnedProfile(y[n])
    ensures x[n] == y[n] && Strip(x[..n]) == Strip(y[..n]) && SlotsOf(x[..n]) == SlotsOf(y[..n])
  {
    if IsOwnedProfile(x[n]) {
      assert SlotsOf(x) == SlotsOf(x[..n]) + [Slot(n, x[n])] && SlotsOf(y) == SlotsOf(y[..n]) + [Slot(n, y[n])];
      assert SlotsOf(x)[..|SlotsOf(x)| - 1] == SlotsOf(x[..n]) && SlotsOf(y)[..|SlotsOf(y)| - 1] == SlotsOf(y[..n]);
    } else {
      assert Strip(x) == Strip(x[..n]) + [x[n]] && Strip(y) == Strip(y[..n]) + [y[n]];
      assert Strip(x)[..|Strip(x)| - 1] == Strip(x[..n]) && Strip(y)[..|Strip(y)| - 1] == Strip(y[..n]);
    }
  }

  /** Re-applying the slots of an array to any array with the same foreign
      profiles rebuilds it exactly. */
  lemma SlotsRestore(entries: seq<Json>, base: seq<Json>)
    requires Strip(base) == Strip(entries)
    ensures ApplyOwnedSlots(base, SlotsOf(entries)) == entries
  {
    SlotsAreThere(entries);
    StripIsForeign(entries);
    PlacedIsSorted(SlotsOf(entries), |Strip(entries)|);
    SlotsLandInPlace(Strip(entries), SlotsOf(entries));
    StripAndSlotsDetermine(ApplyOwnedSlots(base, SlotsOf(entries)), entries);
  }

  // ---------------------------------------------------------- choosing slots

  /** Place of the first profile with this id. */
  function IndexOf(entries: seq<Json>, id: Name): Option<nat> {
    if entries == [] then None
    else
      var before := IndexOf(entries[..|entries| - 1], id);
      if before.Some? then before
      else if IdOf(entries[|entries| - 1]) == Some(id) then Some(|entries| - 1)
      else None
  }

  lemma {:induction false} IndexIsFirst(entries: seq<Json>, id: Name)
    ensures var at := IndexOf(entries, id);
            && (at.Some? ==> at.value < |entries| && IdOf(entries[at.value]) == Some(id)
                             && forall i :: 0 <= i < at.value ==> IdOf(entries[i]) != Some(id))
            && (at.None? ==> forall i :: 0 <= i < |entries| ==> IdOf(entries[i]) != Some(id))
  {
    if entries != [] { IndexIsFirst(entries[..|entries| - 1], id); }
  }

  /** An existing profile keeps its place; an absent one is appended, in declaration order. */
  function ComputeSlots(base: seq<Json>, supervisor: Json, lead: Json): seq<Slot> {
    var first, second := IndexOf(base, SlpSupervisor), IndexOf(base, SlpLead);
    var s := Slot(if first.Some? then first.value else |base|, supervisor);
    var l := Slot(if second.Some? then second.value else if first.Some? then |base| else |base| + 1, lead);
    if s.index <= l.index then [s, l] else [l, s]
  }

  /** The counting loop over the two profiles. */
  method ChooseSlots(base: seq<Json>, supervisor: Json, lead: Json) returns (slots: seq<Slot>)
    requires IdOf(supervisor) == Some(SlpSupervisor) && IdOf(lead) == Some(SlpLead)
    ensures slots == ComputeSlots(base, supervisor, lead)
  {
    var profiles := [supervisor, lead];
    var appended: nat := 0;
    slots := [];
    var first := IndexOf(base, SlpSupervisor);
    for i := 0 to 2
      invariant |slots| == i && appended == (if i >= 1 && first.None? then 1 else 0) + (if i == 2 && IndexOf(base, SlpLead).None? then 1 else 0)
      invariant i >= 1 ==> slots[0] == Slot(if first.Some? then first.value else |base|, supervisor)
      invariant i == 2 ==> SortSlots(slots) == ComputeSlots(base, supervisor, lead)
    {
      var existing := IndexOf(base, IdOf(profiles[i]).value);
      var index := if existing.Some? then existing.value else |base| + appended;
      if existing.None? { appended := appended + 1; }
      slots := slots + [Slot(index, profiles[i])];
      if i == 1 { SortTwo(slots[0], slots[1]); }
    }
    slots := SortSlots(slots);
  }

  lemma SortTwo(a: Slot, b: Slot)
    ensures SortSlots([a, b]) == if a.index <= b.index then [a, b] else [b, a]
  {
    assert [a, b][..1] == [a] && [a][..0] == [];
    assert SortSlots([a]) == InsertSorted([], a) == [a];
    assert InsertSorted([a][..0], b) == [b];
    assert SortSlots([a, b]) == InsertSorted([a], b);
  }

  /** Chosen slots are well placed whenever no owned profile is duplicated. */
  lemma ChosenSlotsArePlaced(base: seq<Json>, supervisor: Json, lead: Json)
    requires IdOf(supervisor) == Some(SlpSupervisor) && IdOf(lead) == Some(SlpLead) && DistinctIds(SlotsOf(base))
    ensures Placed(ComputeSlots(base, supervisor, lead), |Strip(base)|)
    ensures DistinctIds(ComputeSlots(base, supervisor, lead))
  {
    IndexIsFirst(base, SlpSupervisor);
    IndexIsFirst(base, SlpLead);
    StripIsForeign(base);
    SlotsAreThere(base);
    OwnedCount(base);
  }

  /** The owned profiles of an array without duplicates are those its two lookups find. */
  lemma OwnedCount(base: seq<Json>)
    requires DistinctIds(SlotsOf(base))
    ensures var first, second := IndexOf(base, SlpSupervisor), IndexOf(base, SlpLead);
            |SlotsOf(base)| == (if first.Some? then 1 else 0) + (if second.Some? then 1 else 0)
  {
    SlotsAreThere(base);
    var slots := SlotsOf(base);
    IndexIsFirst(base, SlpSupervisor);
    IndexIsFirst(base, SlpLead);
    var first, second := IndexOf(base, SlpSupervisor), IndexOf(base, SlpLead);
    hide SlotsOf, IndexOf;
    if first.Some? { assert SlotAt(base, Slot(first.value, base[first.value])); }
    if second.Some? { assert SlotAt(base, Slot(second.value, base[second.value])); }
    CountByIds(slots);
    forall slot | slot in slots
      ensures first.Some? || IdOf(slot.value) != Some(SlpSupervisor)
      ensures second.Some? || IdOf(slot.value) != Some(SlpLead)
    {
      assert SlotAt(base, slot);
    }
  }

  lemma Pigeonhole(a: Json, b: Json, c: Json)
    ensures IsOwnedProfile(a) && IsOwnedProfile(b) && IsOwnedProfile(c) ==>
              IdOf(a) == IdOf(b) || IdOf(b) == IdOf(c) || IdOf(a) == IdOf(c)
  {
  }

  lemma CountByIds(slots: seq<Slot>)
    requires DistinctIds(slots) && forall slot <- slots :: IsOwnedProfile(slot.value)
    ensures |slots| == (if exists slot <- slots :: IdOf(slot.value) == Some(SlpSupervisor) then 1 else 0)
                     + (if exists slot <- slots :: IdOf(slot.value) == Some(SlpLead) then 1 else 0)
  {
    var n := |slots|;
    if n >= 3 {
      Pigeonhole(slots[0].value, slots[1].value, slots[2].value);
      assert false;
    } else if n == 2 {
      assert slots[0] in slots && slots[1] in slots && IdOf(slots[0].value) != IdOf(slots[1].value);
    } else if n == 1 {
      assert slots[0] in slots;
    }
  }
}
