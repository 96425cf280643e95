/**
 The bounded in-memory log: a circular buffer with an entry limit and a byte limit that refines the
 sequence of everything ever appended, and its paging by a cursor.
 */
module LogRing {
  type Byte = x: int | 0 <= x < 256
  type Text = seq<Byte>

  datatype Field = Field(key: Text, value: Text)

  datatype Entry = Entry(id: nat, level: int, message: Text, source: Text, fields: seq<Field>)

  datatype Stored = Stored(entry: Entry, size: int)

  const BLANK: Stored := Stored(Entry(0, 0, [], [], []), 0)

  const DEFAULT_LIMIT: int := 20
  const MAX_LIMIT: int := 1000

  // ---------------------------------------------------------------- limits

  function Sum(stored: seq<Stored>): int {
    if stored == [] then 0 else stored[0].size + Sum(stored[1..])
  }

  lemma {:induction false} SumOneMore(stored: seq<Stored>, last: Stored)
    ensures Sum(stored + [last]) == Sum(stored) + last.size
  {
    if stored == [] {
      assert stored + [last] == [last] && [last][1..] == [];
      assert Sum([last]) == last.size + Sum([]);
    } else {
      SumOneMore(stored[1..], last);
      assert (stored + [last])[1..] == stored[1..] + [last];
    }
  }

  predicate SizesKnown(stored: seq<Stored>) {
    forall i :: 0 <= i < |stored| ==> stored[i].size >= 0
  }

  lemma {:induction false} SumOfTail(stored: seq<Stored>, d: nat)
    requires SizesKnown(stored) && d <= |stored|
    ensures 0 <= Sum(stored[d..]) <= Sum(stored)
    decreases |stored|
  {
    if stored != [] {
      SumOfTail(stored[1..], if d == 0 then 0 else d - 1);
      if d > 0 { assert stored[1..][d - 1..] == stored[d..]; } else { assert stored[0..] == stored; }
    }
  }

  /** There is room for one more entry beside these. */
  predicate Fits(stored: seq<Stored>, size: int, capacity: nat, limit: int) {
    |stored| < capacity && Sum(stored) + size <= limit
  }

  /** How many of the oldest entries are dropped before one of this size is appended. */
  function Dropped(stored: seq<Stored>, size: int, capacity: nat, limit: int): (d: nat)
    ensures d <= |stored|
  {
    if stored == [] || Fits(stored, size, capacity, limit) then 0 else 1 + Dropped(stored[1..], size, capacity, limit)
  }

  /** The dropped prefix is the shortest one that makes room. */
  lemma {:induction false} DroppedIsLeast(stored: seq<Stored>, size: int, capacity: nat, limit: int, d: nat)
    requires capacity > 0 && 0 <= size <= limit && d <= |stored|
    requires SizesKnown(stored)
    ensures |stored| - d < capacity && Sum(stored[d..]) + size <= limit <==>
              d >= Dropped(stored, size, capacity, limit)
    decreases |stored|
  {
    if stored == [] {
    } else if Fits(stored, size, capacity, limit) {
      SumOfTail(stored, d);
    } else if d == 0 {
      assert stored[0..] == stored;
    } else {
      DroppedIsLeast(stored[1..], size, capacity, limit, d - 1);
      assert stored[1..][d - 1..] == stored[d..];
    }
  }

  // ---------------------------------------------------------------- the ring

  /** An index into the circular buffer, at most one round ahead. */
  function Wrap(x: nat, length: nat): (w: nat)
    requires 0 < length && x < 2 * length
    ensures w == if x < length then x else x - length
  {
    x % length
  }

  /** The circular buffer holds these entries from its head on. */
  predicate Holds(slots: seq<Stored>, head: nat, contents: seq<Stored>) {
    && head < |slots| && |contents| <= |slots|
    && forall i :: 0 <= i < |contents| ==> slots[Wrap(head + i, |slots|)] == contents[i]
  }

  lemma HoldsTail(slots: seq<Stored>, head: nat, contents: seq<Stored>)
    requires Holds(slots, head, contents) && contents != []
    ensures slots[head] == contents[0]
    ensures Holds(slots[head := BLANK], Wrap(head + 1, |slots|), contents[1..])
  {
    assert slots[Wrap(head + 0, |slots|)] == contents[0];
    forall i | 0 <= i < |contents| - 1
      ensures slots[head := BLANK][Wrap(Wrap(head + 1, |slots|) + i, |slots|)] == contents[1..][i]
    {
      assert slots[Wrap(head + (i + 1), |slots|)] == contents[i + 1];
    }
  }

  lemma HoldsOneMore(slots: seq<Stored>, head: nat, contents: seq<Stored>, last: Stored)
    requires Holds(slots, head, contents) && |contents| < |slots|
    ensures Holds(slots[Wrap(head + |contents|, |slots|) := last], head, contents + [last])
  {
  }

  class Ring {
    const slots: array<Stored>
    const limit: int
    var head: nat
    var count: nat
    var nextId: nat
    var totalBytes: int
    /** Everything ever appended. */
    ghost var history: seq<Stored>

    ghost function Contents(): seq<Stored>
      requires count <= |history|
      reads this
    {
      history[|history| - count..]
    }

    /** The buffer holds the latest entries ever appended, identified by their position, within both limits. */
    ghost predicate Valid()
      reads this, slots
    {
      && count <= |history| && nextId == |history|
      && Holds(slots[..], head, Contents())
      && Numbered(history) && SizesKnown(history)
      && totalBytes == Sum(Contents()) && totalBytes <= limit
    }

    constructor (capacity: nat, limit: int)
      requires capacity > 0 && limit > 0
      ensures Valid() && fresh(slots) && slots.Length == capacity && this.limit == limit && history == []
    {
      slots := new Stored[capacity](_ => BLANK);
      this.limit := limit;
      head, count, nextId, totalBytes, history := 0, 0, 0, 0, [];
    }

    method EvictOldest()
      requires Valid() && count > 0
      modifies this, slots
      ensures Valid() && history == old(history) && nextId == old(nextId)
      ensures count == old(count) - 1 && Contents() == old(Contents())[1..]
    {
      hide Holds, Numbered, Sum, Wrap;
      HoldsFrame(slots[..], head, Contents());
      HoldsTail(slots[..], head, Contents());
      TailSum(Contents());
      totalBytes := totalBytes - slots[head].size;
      slots[head] := BLANK;
      head := Wrap(head + 1, slots.Length);
      count := count - 1;
      assert Contents() == old(Contents())[1..];
      assert slots[..] == old(slots[..])[old(head) := BLANK];
    }

    /** Writes an entry behind the latest one. */
    method Place(stored: Stored)
      requires Valid() && Fits(Contents(), stored.size, slots.Length, limit)
      requires stored.entry.id == nextId + 1 && stored.size >= 0
      modifies this, slots
      ensures Valid() && nextId == old(nextId) + 1
      ensures history == old(history) + [stored] && Contents() == old(Contents()) + [stored]
    {
      hide Holds, Sum, Wrap;
      HoldsFrame(slots[..], head, Contents());
      HoldsOneMore(slots[..], head, Contents(), stored);
      SumOneMore(Contents(), stored);
      ghost var at := Wrap(head + count, slots.Length);
      slots[Wrap(head + count, slots.Length)] := stored;
      count := count + 1;
      totalBytes := totalBytes + stored.size;
      nextId := nextId + 1;
      history := history + [stored];
      assert Contents() == old(Contents()) + [stored];
      assert slots[..] == old(slots[..])[at := stored];
    }

    /** Drops the shortest oldest prefix that makes room for an entry of this size. */
    method MakeRoom(size: int)
      requires Valid() && 0 <= size <= limit
      modifies this, slots
      ensures Valid() && history == old(history) && nextId == old(nextId)
      ensures Contents() == old(Contents())[Dropped(old(Contents()), size, slots.Length, limit)..]
      ensures Fits(Contents(), size, slots.Length, limit)
    {
      hide Holds, Numbered, Dropped, Sum, SizesKnown;
      ghost var before := Contents();
      ghost var gone := 0;
      HoldsFrame(slots[..], head, Contents());
      while count > 0 && (count == slots.Length || totalBytes + size > limit)
        invariant Valid() && history == old(history) && nextId == old(nextId) && count <= slots.Length
        invariant gone <= |before| && Contents() == before[gone..]
        invariant gone + Dropped(Contents(), size, slots.Length, limit) == Dropped(before, size, slots.Length, limit)
        decreases count
      {
        DroppedMore(Contents(), size, slots.Length, limit);
        EvictOldest();
        gone := gone + 1;
        HoldsFrame(slots[..], head, Contents());
      }
      DroppedMore(Contents(), size, slots.Length, limit);
    }

    /** The entry is numbered after the last one; as much as needed of the oldest entries makes room for it. */
    method Append(entry: Entry, size: int)
      requires Valid() && 0 <= size <= limit
      modifies this, slots
      ensures Valid() && nextId == old(nextId) + 1
      ensures history == old(history) + [Stored(entry.(id := nextId), size)]
      ensures Contents() == old(Contents())[Dropped(old(Contents()), size, slots.Length, limit)..]
                            + [Stored(entry.(id := nextId), size)]
      ensures nextId - count >= old(nextId - count)
    {
      hide Holds, Numbered, Dropped, Sum, SizesKnown, Fits;
      MakeRoom(size);
      Place(Stored(entry.(id := nextId + 1), size));
    }
  }

  lemma DroppedMore(stored: seq<Stored>, size: int, capacity: nat, limit: int)
    requires capacity > 0 && size <= limit
    ensures stored == [] ==> Fits(stored, size, capacity, limit)
    ensures Dropped(stored, size, capacity, limit)
            == if Fits(stored, size, capacity, limit) then 0 else 1 + Dropped(stored[1..], size, capacity, limit)
  {
  }

  lemma HoldsFrame(slots: seq<Stored>, head: nat, contents: seq<Stored>)
    requires Holds(slots, head, contents)
    ensures head < |slots| && |contents| <= |slots|
  {
  }

  lemma TailSum(stored: seq<Stored>)
    requires SizesKnown(stored) && stored != []
    ensures Sum(stored[1..]) == Sum(stored) - stored[0].size && stored[0].size >= 0
  {
  }

  predicate Numbered(history: seq<Stored>) {
    forall i :: 0 <= i < |history| ==> history[i].entry.id == i + 1
  }
}
