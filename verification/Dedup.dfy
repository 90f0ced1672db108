/** The broker's duplicate filter: an insert-only open-addressed set (server/broker.h) and the
    two rotating windows of recent ids built on it (server/broker.cpp). */
module Dedup {
  import Text

  const HISTORY := 10000
  const CAPACITY := 32768

  datatype MessageId = MessageId(hi: bv64, lo: bv64)

  /** Marks a free slot; Normalise keeps it from ever being a stored id. */
  const EMPTY := MessageId(0, 0)

  function Normalise(id: MessageId): MessageId {
    if id == EMPTY then MessageId(0, 1) else id
  }

  /** CAPACITY - 1: all ones below the capacity's one bit. */
  const MASK: bv64 := 0x7fff

  function Masked(x: bv64): (slot: nat)
    ensures slot < CAPACITY
  {
    (x & MASK) as int
  }

  function HashSlot(id: MessageId): (slot: nat)
    ensures slot < CAPACITY
  {
    Masked(id.hi ^ (id.lo * 0x9e3779b97f4a7c15))
  }

  /** Masking is reduction modulo the capacity, so a masked step goes to the next slot or wraps. */
  lemma MaskIsModulo(x: bv64)
    ensures x & MASK == x % 0x8000
    ensures x < 0x8000 ==> (x + 1) & MASK == if x == MASK then 0 else x + 1
  {
  }

  function Probe(start: nat, k: nat): (slot: nat)
    ensures slot < CAPACITY
  {
    (start + k) % CAPACITY
  }

  lemma ProbeSteps(start: nat, k: nat)
    ensures Probe(start, k + 1) == (Probe(start, k) + 1) % CAPACITY
    ensures start < CAPACITY ==> Probe(start, 0) == start
  {
  }

  ghost function Below(n: nat): (r: set<nat>)
    ensures forall i :: i in r <==> 0 <= i < n
    ensures |r| == n
  {
    if n == 0 then {} else Below(n - 1) + {n - 1}
  }

  lemma Missing(used: set<nat>, n: nat) returns (i: nat)
    requires |used| < n
    ensures i < n && i !in used
  {
    if Below(n) <= used { Text.SubsetSize(Below(n), used); }
    i :| i in Below(n) && i !in used;
  }

  /** Fewer occupied slots than slots: whichever slot probing starts at, it meets a free one. */
  lemma FreeSlot(used: set<nat>, start: nat) returns (k: nat)
    requires |used| < CAPACITY
    ensures k < CAPACITY && Probe(start, k) !in used
  {
    var free := Missing(used, CAPACITY);
    k := (free + CAPACITY - start % CAPACITY) % CAPACITY;
  }

  ghost function Used(slots: seq<MessageId>): set<nat> {
    set i | 0 <= i < |slots| && slots[i] != EMPTY
  }

  /** `distance` says how far past its hash slot each stored id sits. Every occupied slot holds a
      stored id at its own place, and no free slot lies between an id's hash slot and that place,
      wrapping around the end. */
  ghost predicate Placed(slots: seq<MessageId>, distance: map<MessageId, nat>) {
    && |slots| == CAPACITY
    && EMPTY !in distance
    && (forall id :: id in distance ==>
          distance[id] < CAPACITY && slots[Probe(HashSlot(id), distance[id])] == id)
    && (forall id, k :: id in distance && 0 <= k < distance[id] ==> slots[Probe(HashSlot(id), k)] != EMPTY)
    && (forall i :: 0 <= i < CAPACITY && slots[i] != EMPTY ==> slots[i] in distance)
    && |Used(slots)| == |distance|
  }

  lemma UsedInsert(slots: seq<MessageId>, slot: nat, id: MessageId)
    requires slot < |slots| && slots[slot] == EMPTY && id != EMPTY
    ensures |Used(slots[slot := id])| == |Used(slots)| + 1
  {
    assert Used(slots[slot := id]) == Used(slots) + {slot};
  }

  lemma PlaceInsert(slots: seq<MessageId>, distance: map<MessageId, nat>, id: MessageId, steps: nat)
    requires Placed(slots, distance) && id !in distance && id != EMPTY && steps < CAPACITY
    requires slots[Probe(HashSlot(id), steps)] == EMPTY
    requires forall k :: 0 <= k < steps ==> slots[Probe(HashSlot(id), k)] != EMPTY
    ensures Placed(slots[Probe(HashSlot(id), steps) := id], distance[id := steps])
  {
    hide HashSlot, Probe;
    var slot := Probe(HashSlot(id), steps);
    var slots', distance' := slots[slot := id], distance[id := steps];
    UsedInsert(slots, slot, id);
    hide Used;
    forall x | x in distance'
      ensures distance'[x] < CAPACITY && slots'[Probe(HashSlot(x), distance'[x])] == x
      ensures forall k :: 0 <= k < distance'[x] ==> slots'[Probe(HashSlot(x), k)] != EMPTY
    {
      if x != id { assert slots[Probe(HashSlot(x), distance[x])] == x; }
    }
  }

  class MessageIdSet {
    const slots: array<MessageId>
    var count: nat

    /** The ids inserted since the last clear, with their distances. */
    ghost var distance: map<MessageId, nat>

    ghost function Contents(): set<MessageId>
      reads this
    {
      distance.Keys
    }

    ghost predicate Valid()
      reads this, slots
    {
      Placed(slots[..], distance) && count == |distance|
    }

    constructor ()
      ensures Valid() && fresh(slots) && Contents() == {}
    {
      slots := new MessageId[CAPACITY](_ => EMPTY);
      count := 0;
      distance := map[];
      new;
      assert Used(slots[..]) == {};
    }

    /** Probes to the id or to the first free slot, whichever comes first. */
    method Locate(id: MessageId) returns (slot: nat, ghost steps: nat)
      requires Valid() && id != EMPTY && count < CAPACITY
      ensures slots.Length == CAPACITY && steps < CAPACITY && slot == Probe(HashSlot(id), steps)
      ensures slots[slot] == if id in Contents() then id else EMPTY
      ensures forall k :: 0 <= k < steps ==> slots[Probe(HashSlot(id), k)] != EMPTY
    {
      hide HashSlot, Probe;
      ghost var limit := FreeSlot(Used(slots[..]), HashSlot(id));
      slot, steps := HashSlot(id), 0;
      ProbeSteps(slot, 0);
      while slots[slot] != EMPTY
        invariant steps <= limit && slot == Probe(HashSlot(id), steps)
        invariant forall k :: 0 <= k < steps ==> slots[Probe(HashSlot(id), k)] !in {EMPTY, id}
        decreases limit - steps
      {
        if slots[slot] == id {
          return;
        }
        ProbeSteps(HashSlot(id), steps);
        slot, steps := (slot + 1) % CAPACITY, steps + 1;
      }
    }

    method Contains(id: MessageId) returns (found: bool)
      requires Valid() && id != EMPTY && count < CAPACITY
      ensures found <==> id in Contents()
    {
      var slot, _ := Locate(id);
      found := slots[slot] == id;
    }

    method Insert(id: MessageId)
      requires Valid() && id != EMPTY && count < CAPACITY
      modifies this, slots
      ensures Valid()
      ensures Contents() == old(Contents()) + {id}
    {
      hide HashSlot, Probe;
      var slot, steps := Locate(id);
      if slots[slot] == id {
        return;
      }
      PlaceInsert(slots[..], distance, id, steps);
      ghost var was := slots[..];
      slots[slot] := id;
      assert slots[..] == was[slot := id];
      count := count + 1;
      distance := distance[id := steps];
    }

    method Clear()
      requires Valid()
      modifies this, slots
      ensures Valid()
      ensures Contents() == {}
    {
      hide HashSlot, Probe;
      for i := 0 to slots.Length
        invariant forall j :: 0 <= j < i ==> slots[j] == EMPTY
      {
        slots[i] := EMPTY;
      }
      count := 0;
      distance := map[];
      assert Used(slots[..]) == {};
    }

    method Size() returns (n: nat)
      requires Valid()
      ensures n == |Contents()|
    {
      n := count;
    }
  }

  // The history the two windows stand for: the accepted ids, oldest first.

  /** How many full windows have been rotated out. */
  function Rotations(n: nat): nat { n / HISTORY }

  function CurrentStart(n: nat): (k: nat)
    ensures k <= n < k + HISTORY
  {
    Rotations(n) * HISTORY
  }

  /** Everything from this index on is still remembered. */
  function RememberedStart(n: nat): (k: nat)
    ensures k <= CurrentStart(n)
  {
    if Rotations(n) == 0 then 0 else CurrentStart(n) - HISTORY
  }

  function Remembered(h: seq<MessageId>): seq<MessageId> { h[RememberedStart(|h|)..] }

  /** The filter's effect: an id still remembered is a duplicate, any other one is accepted. */
  function Observe(h: seq<MessageId>, id: MessageId): seq<MessageId> {
    if Normalise(id) in Remembered(h) then h else h + [Normalise(id)]
  }

  function History(arrivals: seq<MessageId>): seq<MessageId> {
    if arrivals == [] then []
    else Observe(History(arrivals[..|arrivals| - 1]), arrivals[|arrivals| - 1])
  }

  /** Between N and 2N of the latest ids are remembered, fewer only while fewer were accepted. */
  lemma RemembersRecent(h: seq<MessageId>)
    ensures |h| < 2 * HISTORY ==> Remembered(h) == h
    ensures |h| >= HISTORY ==> HISTORY <= |Remembered(h)| < 2 * HISTORY
    ensures Remembered(h) == h[|h| - |Remembered(h)|..]
  {
  }

  /** Each id of the history was not remembered when it was accepted. */
  ghost predicate Genuine(h: seq<MessageId>) {
    forall i, j :: 0 <= i < j < |h| && h[i] == h[j] ==> i < RememberedStart(j)
  }

  lemma ObserveGenuine(h: seq<MessageId>, id: MessageId)
    requires Genuine(h)
    ensures Genuine(Observe(h, id))
  {
    var h' := Observe(h, id);
    forall i, j | 0 <= i < j < |h'| && h'[i] == h'[j]
      ensures i < RememberedStart(j)
    {
    }
  }

  lemma {:induction false} HistoryGenuine(arrivals: seq<MessageId>)
    ensures Genuine(History(arrivals))
  {
    if arrivals == [] {
    } else {
      HistoryGenuine(arrivals[..|arrivals| - 1]);
      ObserveGenuine(History(arrivals[..|arrivals| - 1]), arrivals[|arrivals| - 1]);
    }
  }

  lemma GenuineApart(h: seq<MessageId>, i: nat, j: nat)
    requires Genuine(h) && i < j < |h| && h[i] == h[j]
    ensures j - i > HISTORY && j >= 2 * HISTORY
  {
    assert i < RememberedStart(j);
  }

  /** At most once: whatever arrives, two acceptances of one id have at least HISTORY other
      acceptances between them, and the second is never among the first 2 * HISTORY accepted. */
  lemma {:induction false} AcceptedAtMostOnce(arrivals: seq<MessageId>, i: nat, j: nat)
    requires i < j < |History(arrivals)|
    requires History(arrivals)[i] == History(arrivals)[j]
    ensures j - i > HISTORY
    ensures j >= 2 * HISTORY
  {
    HistoryGenuine(arrivals);
    GenuineApart(History(arrivals), i, j);
  }

  ghost function Elements(h: seq<MessageId>): set<MessageId> { set id | id in h }

  lemma {:induction false} ElementsSize(h: seq<MessageId>)
    requires forall i, j :: 0 <= i < j < |h| ==> h[i] != h[j]
    ensures |Elements(h)| == |h|
  {
    if h == [] {
    } else {
      var init := h[..|h| - 1];
      ElementsSize(init);
      assert h == init + [h[|h| - 1]];
      assert Elements(h) == Elements(init) + {h[|h| - 1]};
    }
  }

  function CurrentWindow(h: seq<MessageId>): seq<MessageId> { h[CurrentStart(|h|)..] }

  function PreviousWindow(h: seq<MessageId>): seq<MessageId> { h[RememberedStart(|h|)..CurrentStart(|h|)] }

  lemma WindowSizes(h: seq<MessageId>)
    requires Genuine(h)
    ensures |Elements(CurrentWindow(h))| == |CurrentWindow(h)| < HISTORY
    ensures |Elements(PreviousWindow(h))| <= HISTORY
    ensures forall id :: id in Remembered(h) <==> id in Elements(PreviousWindow(h)) + Elements(CurrentWindow(h))
  {
    assert Remembered(h) == PreviousWindow(h) + CurrentWindow(h);
    WindowDistinct(h, CurrentStart(|h|), |h|);
    WindowDistinct(h, RememberedStart(|h|), CurrentStart(|h|));
    ElementsSize(CurrentWindow(h));
    ElementsSize(PreviousWindow(h));
  }

  lemma WindowDistinct(h: seq<MessageId>, from: nat, to: nat)
    requires Genuine(h) && from <= to <= |h|
    requires from % HISTORY == 0 && to - from <= HISTORY
    ensures var w := h[from..to]; forall i, j :: 0 <= i < j < |w| ==> w[i] != w[j]
  {
    var w := h[from..to];
    forall i, j | 0 <= i < j < |w| ensures w[i] != w[j] {
      assert RememberedStart(from + j) <= from;
    }
  }

  lemma NextStart(n: nat)
    ensures if n + 1 < CurrentStart(n) + HISTORY
            then CurrentStart(n + 1) == CurrentStart(n) && RememberedStart(n + 1) == RememberedStart(n)
            else CurrentStart(n + 1) == n + 1 && RememberedStart(n + 1) == CurrentStart(n)
  {
  }

  /** What accepting one more id does to the windows: it fills the current one or rotates them. */
  lemma WindowStep(h: seq<MessageId>, id: MessageId)
    ensures |CurrentWindow(h)| + 1 < HISTORY ==>
              CurrentWindow(h + [id]) == CurrentWindow(h) + [id] && PreviousWindow(h + [id]) == PreviousWindow(h)
    ensures |CurrentWindow(h)| + 1 >= HISTORY ==>
              CurrentWindow(h + [id]) == [] && PreviousWindow(h + [id]) == CurrentWindow(h) + [id]
    ensures Elements(CurrentWindow(h) + [id]) == Elements(CurrentWindow(h)) + {id}
  {
    hide CurrentStart, RememberedStart;
    NextStart(|h|);
  }

  class DuplicateFilter {
    var current: MessageIdSet
    var previous: MessageIdSet
    ghost var history: seq<MessageId>

    /** The windows hold exactly h[kN..] and h[(k-1)N..kN], for k = |h| / N. */
    ghost predicate Valid()
      reads this, current, current.slots, previous, previous.slots
    {
      && current != previous && current.slots != previous.slots
      && current.Valid() && previous.Valid()
      && Genuine(history)
      && current.Contents() == Elements(CurrentWindow(history))
      && previous.Contents() == Elements(PreviousWindow(history))
    }

    constructor ()
      ensures Valid() && history == []
      ensures fresh(current) && fresh(current.slots) && fresh(previous) && fresh(previous.slots)
    {
      current := new MessageIdSet();
      previous := new MessageIdSet();
      history := [];
    }

    method IsDuplicate(raw: MessageId) returns (duplicate: bool)
      requires Valid()
      modifies this, current, current.slots, previous, previous.slots
      ensures Valid()
      ensures {current, previous} == old({current, previous})
      ensures duplicate <==> Normalise(raw) in Remembered(old(history))
      ensures history == Observe(old(history), raw)
    {
      var id := if raw == EMPTY then MessageId(0, 1) else raw;
      hide Placed, Genuine, Remembered, CurrentWindow, PreviousWindow;
      WindowSizes(history);
      duplicate := current.Contains(id);
      if !duplicate { duplicate := previous.Contains(id); }
      if !duplicate { Record(id); }
    }

    /** Stores an accepted id, and rotates the windows once the current one is full. */
    method Record(id: MessageId)
      requires Valid() && id != EMPTY && id !in Remembered(history)
      modifies this, current, current.slots, previous, previous.slots
      ensures Valid()
      ensures {current, previous} == old({current, previous})
      ensures history == old(history) + [id]
    {
      hide Placed, Genuine, Remembered, CurrentWindow, PreviousWindow, Elements;
      WindowSizes(history);
      WindowStep(history, id);
      ObserveGenuine(history, id);
      current.Insert(id);
      history := history + [id];
      assert Genuine(history) && current.Contents() == Elements(CurrentWindow(old(history)) + [id]);
      var size := current.Size();
      if size >= HISTORY {
        current, previous := previous, current;
        current.Clear();
        assert Elements([]) == {} by { ElementsSize([]); }
      }
      assert current.Contents() == Elements(CurrentWindow(history));
      assert previous.Contents() == Elements(PreviousWindow(history));
    }
  }
}
