/** Listing the log newest first, and following its cursor while entries are appended between the pages. */
module LogPaging {
  import opened LogRing

  datatype Page = Page(items: seq<Entry>, total: nat, hasMore: bool, next: nat)

  /** What a filter keeps; any predicate of an entry. */
  type Keep = Entry -> bool

  function NormalizedLimit(limit: int): (normal: int)
    ensures 1 <= limit <= 1000 ==> normal == limit
    ensures limit <= 0 ==> normal == 20
    ensures limit > 1000 ==> normal == 1000
  {
    if limit <= 0 then DEFAULT_LIMIT else if limit > MAX_LIMIT then MAX_LIMIT else limit
  }

  // ---------------------------------------------------------------- matching entries

  /** The kept entries at positions lo to hi - 1 of the history, newest first. */
  function Matches(all: seq<Stored>, lo: nat, hi: nat, keep: Keep): seq<Entry>
    requires lo <= hi <= |all|
    decreases hi
  {
    if lo == hi then []
    else (if keep(all[hi - 1].entry) then [all[hi - 1].entry] else []) + Matches(all, lo, hi - 1, keep)
  }

  lemma {:induction false} MatchesSplit(all: seq<Stored>, lo: nat, middle: nat, hi: nat, keep: Keep)
    requires lo <= middle <= hi <= |all|
    ensures Matches(all, lo, hi, keep) == Matches(all, middle, hi, keep) + Matches(all, lo, middle, keep)
    decreases hi
  {
    if middle < hi { MatchesSplit(all, lo, middle, hi - 1, keep); }
  }

  predicate NewestFirst(list: seq<Entry>) {
    forall i, j :: 0 <= i < j < |list| ==> list[i].id > list[j].id
  }

  /** Only kept entries from positions lo to hi - 1 of the history. */
  predicate Genuine(all: seq<Stored>, lo: nat, hi: nat, keep: Keep, list: seq<Entry>) {
    forall i :: 0 <= i < |list| ==>
      lo < list[i].id <= hi <= |all| && keep(list[i]) && list[i] == all[list[i].id - 1].entry
  }

  lemma {:induction false} MatchesDescend(all: seq<Stored>, lo: nat, hi: nat, keep: Keep)
    requires lo <= hi <= |all| && Numbered(all)
    ensures Genuine(all, lo, hi, keep, Matches(all, lo, hi, keep)) && NewestFirst(Matches(all, lo, hi, keep))
    decreases hi
  {
    if lo < hi {
      var e, rest := all[hi - 1].entry, Matches(all, lo, hi - 1, keep);
      MatchesDescend(all, lo, hi - 1, keep);
      AboveAll(all, lo, hi, keep, rest);
      hide Genuine, NewestFirst, Numbered;
      assert [] + rest == rest;
    }
  }

  lemma AboveAll(all: seq<Stored>, lo: nat, hi: nat, keep: Keep, rest: seq<Entry>)
    requires lo < hi <= |all| && Numbered(all) && Genuine(all, lo, hi - 1, keep, rest) && NewestFirst(rest)
    ensures Genuine(all, lo, hi, keep, rest)
    ensures keep(all[hi - 1].entry) ==>
              Genuine(all, lo, hi, keep, [all[hi - 1].entry] + rest) && NewestFirst([all[hi - 1].entry] + rest)
  {
    assert all[hi - 1].entry.id == hi;
    hide Numbered;
  }

  lemma {:induction false} MatchesContain(all: seq<Stored>, lo: nat, hi: nat, keep: Keep, i: nat)
    requires lo <= i < hi <= |all| && keep(all[i].entry)
    ensures all[i].entry in Matches(all, lo, hi, keep)
    decreases hi
  {
    if i < hi - 1 { MatchesContain(all, lo, hi - 1, keep, i); }
  }

  // ---------------------------------------------------------------- one page

  /** Positions below this one, and not below lo, hold the entries before the cursor; cursor 0 is no cursor. */
  function Top(lo: nat, hi: nat, before: nat): (top: nat)
    requires lo <= hi
    ensures lo <= top <= hi
  {
    if before == 0 || before > hi then hi else if before - 1 < lo then lo else before - 1
  }

  function Cut(s: seq<Entry>, offset: nat, limit: nat): seq<Entry> {
    if |s| <= offset then [] else if |s| <= offset + limit then s[offset..] else s[offset..offset + limit]
  }

  function PageOf(all: seq<Stored>, lo: nat, hi: nat, keep: Keep, before: nat, offset: nat, limit: nat): Page
    requires lo <= hi <= |all|
  {
    var eligible := Matches(all, lo, Top(lo, hi, before), keep);
    var items, more := Cut(eligible, offset, limit), |eligible| > offset + limit;
    Page(items, |Matches(all, lo, hi, keep)|, more, if more && items != [] then items[|items| - 1].id else 0)
  }

  lemma MatchesOneLower(all: seq<Stored>, lo: nat, hi: nat, before: nat, keep: Keep)
    requires 0 < lo <= hi <= |all| && Numbered(all)
    ensures var e := all[lo - 1].entry;
            && Matches(all, lo - 1, hi, keep) == Matches(all, lo, hi, keep) + (if keep(e) then [e] else [])
            && Matches(all, lo - 1, Top(lo - 1, hi, before), keep)
               == Matches(all, lo, Top(lo, hi, before), keep)
                  + (if keep(e) && (before == 0 || e.id < before) then [e] else [])
  {
    MatchesSplit(all, lo - 1, lo, hi, keep);
    assert Matches(all, lo - 1, lo - 1, keep) == [];
    assert Matches(all, lo - 1, lo, keep) == if keep(all[lo - 1].entry) then [all[lo - 1].entry] else [];
    assert Matches(all, lo, lo, keep) == [];
    hide Matches;
    if before == 0 || lo < before { MatchesSplit(all, lo - 1, lo, Top(lo, hi, before), keep); }
  }

  /** The part of the scan that has been done after looking at the newest r entries. */
  ghost predicate Scanned(
      all: seq<Stored>, lo: nat, hi: nat, keep: Keep, before: nat, offset: nat, limit: nat,
      items: seq<Entry>, total: nat, eligible: nat, hasMore: bool)
  {
    && lo <= hi <= |all|
    && var found := Matches(all, lo, Top(lo, hi, before), keep);
       && total == |Matches(all, lo, hi, keep)| && eligible == |found|
       && items == Cut(found, offset, limit) && hasMore == (|found| > offset + limit)
  }

  method List(ring: Ring, keep: Keep, before: nat, offset: int, limit: int) returns (page: Page)
    requires ring.Valid()
    ensures var n := |ring.history|;
            page == PageOf(ring.history, n - ring.count, n, keep, before, if offset < 0 then 0 else offset,
                           NormalizedLimit(limit))
  {
    hide Holds, Sum, Scanned, Wrap, SizesKnown, PageOf;
    ghost var all, n := ring.history, |ring.history|;
    var max: nat, skip: nat := NormalizedLimit(limit), if offset < 0 then 0 else offset;
    var items: seq<Entry>, total: nat, eligible: nat, hasMore := [], 0, 0, false;
    HoldsFrame(ring.slots[..], ring.head, ring.Contents());
    ScanStart(all, keep, before, skip, max);
    for r := 0 to ring.count
      invariant Scanned(all, n - r, n, keep, before, skip, max, items, total, eligible, hasMore)
    {
      var index := Wrap(ring.head + ring.count - 1 - r, ring.slots.Length);
      var candidate := ring.slots[index].entry;
      CandidateAt(ring, r);
      ScanStep(all, n - r, n, keep, before, skip, max, items, total, eligible, hasMore);
      if keep(candidate) {
        total := total + 1;
        if before == 0 || candidate.id < before {
          if eligible >= skip {
            if |items| >= max { hasMore := true; } else { items := items + [candidate]; }
          }
          eligible := eligible + 1;
        }
      }
    }
    page := Page(items, total, hasMore, if hasMore && |items| > 0 then items[|items| - 1].id else 0);
    ScanEnd(all, n - ring.count, n, keep, before, skip, max, items, total, eligible, hasMore);
  }

  lemma ScanStart(all: seq<Stored>, keep: Keep, before: nat, skip: nat, max: nat)
    ensures Scanned(all, |all|, |all|, keep, before, skip, max, [], 0, 0, false)
  {
  }

  lemma ScanEnd(
      all: seq<Stored>, lo: nat, hi: nat, keep: Keep, before: nat, skip: nat, max: nat,
      items: seq<Entry>, total: nat, eligible: nat, hasMore: bool)
    requires Scanned(all, lo, hi, keep, before, skip, max, items, total, eligible, hasMore)
    ensures lo <= hi <= |all|
    ensures PageOf(all, lo, hi, keep, before, skip, max)
            == Page(items, total, hasMore, if hasMore && |items| > 0 then items[|items| - 1].id else 0)
  {
    hide Matches;
  }

  lemma CandidateAt(ring: Ring, r: nat)
    requires ring.Valid() && r < ring.count && ring.count <= ring.slots.Length && ring.head < ring.slots.Length
    ensures ring.slots[Wrap(ring.head + ring.count - 1 - r, ring.slots.Length)] == ring.history[|ring.history| - r - 1]
  {
    var i := ring.count - 1 - r;
    assert ring.slots[..][Wrap(ring.head + i, ring.slots.Length)] == ring.Contents()[i];
    hide Wrap, Sum;
  }

  lemma ScanStep(
      all: seq<Stored>, lo: nat, hi: nat, keep: Keep, before: nat, skip: nat, max: nat,
      items: seq<Entry>, total: nat, eligible: nat, hasMore: bool)
    requires Scanned(all, lo, hi, keep, before, skip, max, items, total, eligible, hasMore)
    requires lo > 0 && Numbered(all) && max > 0
    ensures var e := all[lo - 1].entry;
            var seen := keep(e) && (before == 0 || e.id < before);
            var shown := seen && eligible >= skip;
            Scanned(all, lo - 1, hi, keep, before, skip, max,
                    if shown && |items| < max then items + [e] else items,
                    if keep(e) then total + 1 else total,
                    if seen then eligible + 1 else eligible,
                    hasMore || (shown && |items| >= max))
  {
    MatchesOneLower(all, lo, hi, before, keep);
    hide Matches, Top, Numbered;
  }

  // ---------------------------------------------------------------- what a page is

  lemma {:induction false} MatchesCount(all: seq<Stored>, lo: nat, hi: nat, keep: Keep)
    requires lo <= hi <= |all|
    ensures |Matches(all, lo, hi, keep)| == |set i | lo <= i < hi && keep(all[i].entry)|
    decreases hi
  {
    var found := set i | lo <= i < hi && keep(all[i].entry);
    if lo == hi {
      assert found == {};
    } else {
      MatchesCount(all, lo, hi - 1, keep);
      var earlier := set i | lo <= i < hi - 1 && keep(all[i].entry);
      assert found == earlier + (if keep(all[hi - 1].entry) then {hi - 1} else {});
    }
  }

  /** The total counts the retained matches. A page with more to come is full and points to its last item. */
  lemma PageMeans(all: seq<Stored>, lo: nat, hi: nat, keep: Keep, before: nat, offset: nat, limit: nat)
    requires lo <= hi <= |all| && limit >= 1
    ensures var page := PageOf(all, lo, hi, keep, before, offset, limit);
            && page.total == |set i | lo <= i < hi && keep(all[i].entry)|
            && |page.items| <= limit
            && (page.hasMore ==> |page.items| == limit && page.next == page.items[limit - 1].id)
            && (!page.hasMore ==> page.next == 0)
  {
    MatchesCount(all, lo, hi, keep);
    hide Matches, Top;
  }

  /** The items of the pages read at consecutive offsets, until no more are reported. */
  function ByOffset(all: seq<Stored>, lo: nat, hi: nat, keep: Keep, before: nat, offset: nat, limit: nat): seq<Entry>
    requires lo <= hi <= |all| && limit >= 1
    decreases |Matches(all, lo, Top(lo, hi, before), keep)| - offset
  {
    var page := PageOf(all, lo, hi, keep, before, offset, limit);
    page.items + (if page.hasMore then ByOffset(all, lo, hi, keep, before, offset + limit, limit) else [])
  }

  lemma {:induction false} ByOffsetIsTheRest(
      all: seq<Stored>, lo: nat, hi: nat, keep: Keep, before: nat, offset: nat, limit: nat)
    requires lo <= hi <= |all| && limit >= 1
    ensures var m := Matches(all, lo, Top(lo, hi, before), keep);
            ByOffset(all, lo, hi, keep, before, offset, limit) == if |m| <= offset then [] else m[offset..]
    decreases |Matches(all, lo, Top(lo, hi, before), keep)| - offset
  {
    hide *;
    var m := Matches(all, lo, Top(lo, hi, before), keep);
    ByOffsetUnfolds(all, lo, hi, keep, before, offset, limit);
    CutAndRest(m, offset, limit);
    if |m| > offset + limit { ByOffsetIsTheRest(all, lo, hi, keep, before, offset + limit, limit); }
  }

  lemma ByOffsetUnfolds(all: seq<Stored>, lo: nat, hi: nat, keep: Keep, before: nat, offset: nat, limit: nat)
    requires lo <= hi <= |all| && limit >= 1
    ensures var m := Matches(all, lo, Top(lo, hi, before), keep);
            ByOffset(all, lo, hi, keep, before, offset, limit)
            == if |m| > offset + limit
               then Cut(m, offset, limit) + ByOffset(all, lo, hi, keep, before, offset + limit, limit)
               else Cut(m, offset, limit)
  {
    hide Matches, Top, Cut;
    var m := Matches(all, lo, Top(lo, hi, before), keep);
    assert Cut(m, offset, limit) + [] == Cut(m, offset, limit);
  }

  lemma CutAndRest(m: seq<Entry>, offset: nat, limit: nat)
    ensures |m| > offset + limit ==> m[offset..] == Cut(m, offset, limit) + m[offset + limit..]
    ensures |m| <= offset + limit ==> Cut(m, offset, limit) == if |m| <= offset then [] else m[offset..]
  {
  }

  /**
   Pages at consecutive offsets, of whatever size, part the retained matches before the cursor: each is listed
   exactly once, newest first, and nothing else is.
   */
  lemma OffsetsListEachMatchOnce(all: seq<Stored>, lo: nat, hi: nat, keep: Keep, before: nat, limit: nat)
    requires lo <= hi <= |all| && limit >= 1 && Numbered(all)
    ensures var list := ByOffset(all, lo, hi, keep, before, 0, limit);
            && NewestFirst(list) && Genuine(all, lo, hi, keep, list)
            && (forall i :: 0 <= i < |list| ==> before == 0 || list[i].id < before)
            && (forall i :: lo <= i < hi && keep(all[i].entry) && (before == 0 || i + 1 < before) ==>
                  all[i].entry in list)
  {
    hide *;
    var top := Top(lo, hi, before);
    var m := Matches(all, lo, top, keep);
    ByOffsetIsTheRest(all, lo, hi, keep, before, 0, limit);
    WholeList(m);
    MatchesDescend(all, lo, top, keep);
    BelowCursor(all, lo, hi, keep, before, m);
    forall i | lo <= i < hi && keep(all[i].entry) && (before == 0 || i + 1 < before)
      ensures all[i].entry in m
    {
      AboveBottom(lo, hi, before, i);
      MatchesContain(all, lo, top, keep, i);
    }
  }

  lemma WholeList(m: seq<Entry>)
    ensures (if |m| <= 0 then [] else m[0..]) == m
  {
  }

  lemma BelowCursor(all: seq<Stored>, lo: nat, hi: nat, keep: Keep, before: nat, m: seq<Entry>)
    requires lo <= hi <= |all| && Genuine(all, lo, Top(lo, hi, before), keep, m)
    ensures Genuine(all, lo, hi, keep, m)
    ensures forall i :: 0 <= i < |m| ==> before == 0 || m[i].id < before
  {
  }

  lemma AboveBottom(lo: nat, hi: nat, before: nat, i: nat)
    requires lo <= i < hi && (before == 0 || i + 1 < before)
    ensures i < Top(lo, hi, before)
  {
  }

  // ---------------------------------------------------------------- following the cursor

  /** What the ring holds of the history when a page is read: positions lo to hi - 1. */
  datatype Window = Window(lo: nat, hi: nat)

  /** Between pages entries are appended and old ones dropped. */
  predicate Growing(all: seq<Stored>, windows: seq<Window>) {
    && (forall i :: 0 <= i < |windows| ==> windows[i].lo <= windows[i].hi <= |all|)
    && (forall i, j :: 0 <= i <= j < |windows| ==> windows[i].lo <= windows[j].lo && windows[i].hi <= windows[j].hi)
  }

  /** The items of the pages read through the cursor, one page per window until no more are reported. */
  function Followed(all: seq<Stored>, windows: seq<Window>, keep: Keep, before: nat, limit: nat): seq<Entry>
    requires Growing(all, windows)
    decreases |windows|
  {
    if windows == [] then []
    else
      var page := PageOf(all, windows[0].lo, windows[0].hi, keep, before, 0, limit);
      page.items + (if page.hasMore then Followed(all, windows[1..], keep, page.next, limit) else [])
  }

  /** The last window is the one whose page reports no more. */
  predicate Finished(all: seq<Stored>, windows: seq<Window>, keep: Keep, before: nat, limit: nat)
    requires Growing(all, windows)
    decreases |windows|
  {
    windows != [] &&
    var page := PageOf(all, windows[0].lo, windows[0].hi, keep, before, 0, limit);
    if page.hasMore then Finished(all, windows[1..], keep, page.next, limit) else |windows| == 1
  }

  lemma {:induction false} TakeMatches(all: seq<Stored>, lo: nat, hi: nat, keep: Keep, n: nat)
    requires lo <= hi <= |all| && Numbered(all) && 1 <= n <= |Matches(all, lo, hi, keep)|
    ensures var m := Matches(all, lo, hi, keep);
            lo < m[n - 1].id <= hi && m[..n] == Matches(all, m[n - 1].id - 1, hi, keep)
    decreases hi
  {
    var m, rest := Matches(all, lo, hi, keep), Matches(all, lo, hi - 1, keep);
    if !keep(all[hi - 1].entry) {
      TakeMatches(all, lo, hi - 1, keep, n);
    } else if n == 1 {
      assert m[..1] == [all[hi - 1].entry];
    } else {
      TakeMatches(all, lo, hi - 1, keep, n - 1);
      assert m[..n] == [all[hi - 1].entry] + rest[..n - 1];
    }
  }

  lemma PageItems(all: seq<Stored>, w: Window, keep: Keep, before: nat, limit: nat)
    requires w.lo <= w.hi <= |all| && limit >= 1
    ensures var m := Matches(all, w.lo, Top(w.lo, w.hi, before), keep);
            var page := PageOf(all, w.lo, w.hi, keep, before, 0, limit);
            && page.hasMore == (|m| > limit)
            && page.items == (if |m| > limit then m[..limit] else m)
            && page.next == (if |m| > limit then m[limit - 1].id else 0)
  {
    hide Matches, Top;
    var m := Matches(all, w.lo, Top(w.lo, w.hi, before), keep);
    assert m[0..] == m;
    assert |m| > limit ==> m[0..limit] == m[..limit];
  }

  /** The list has the matches from position `floor` up to the cursor. */
  predicate Covers(all: seq<Stored>, list: seq<Entry>, floor: nat, before: nat, keep: Keep) {
    floor < before <= |all| + 1 && list == Matches(all, floor, before - 1, keep)
  }

  lemma CoversMore(all: seq<Stored>, list: seq<Entry>, rest: seq<Entry>, floor: nat, next: nat, before: nat, keep: Keep)
    requires next > 0 && Covers(all, list, next - 1, before, keep) && Covers(all, rest, floor, next, keep)
    ensures Covers(all, list + rest, floor, before, keep)
  {
    MatchesSplit(all, floor, next - 1, before - 1, keep);
    hide Matches;
  }

  /** A page with more to come ends at its cursor, strictly before where it began. */
  lemma FullPage(all: seq<Stored>, w: Window, keep: Keep, before: nat, limit: nat)
    requires w.lo <= w.hi <= |all| && Numbered(all) && limit >= 1 && 1 <= before <= w.hi + 1
    requires PageOf(all, w.lo, w.hi, keep, before, 0, limit).hasMore
    ensures var page := PageOf(all, w.lo, w.hi, keep, before, 0, limit);
            w.lo < page.next && Covers(all, page.items, page.next - 1, before, keep)
  {
    PageItems(all, w, keep, before, limit);
    hide Matches, PageOf, Numbered;
    TakeMatches(all, w.lo, Top(w.lo, w.hi, before), keep, limit);
  }

  /** The last page runs down to the oldest retained entry. */
  lemma LastPage(all: seq<Stored>, w: Window, keep: Keep, before: nat, limit: nat) returns (floor: nat)
    requires w.lo <= w.hi <= |all| && limit >= 1 && 1 <= before <= w.hi + 1
    requires !PageOf(all, w.lo, w.hi, keep, before, 0, limit).hasMore
    ensures floor <= w.lo && Covers(all, PageOf(all, w.lo, w.hi, keep, before, 0, limit).items, floor, before, keep)
  {
    hide Matches, PageOf;
    PageItems(all, w, keep, before, limit);
    floor := if before - 1 < w.lo then before - 1 else w.lo;
    NoMatches(all, floor, keep);
    NoMatches(all, w.lo, keep);
  }

  lemma NoMatches(all: seq<Stored>, lo: nat, keep: Keep)
    requires lo <= |all|
    ensures Matches(all, lo, lo, keep) == []
  {
  }

  lemma FollowedUnfolds(all: seq<Stored>, windows: seq<Window>, keep: Keep, before: nat, limit: nat)
    requires Growing(all, windows) && Finished(all, windows, keep, before, limit)
    ensures windows != [] && windows[0].lo <= windows[0].hi <= |all| && Growing(all, windows[1..])
    ensures var page := PageOf(all, windows[0].lo, windows[0].hi, keep, before, 0, limit);
            if page.hasMore then
              && |windows| > 1 && windows[1].hi >= windows[0].hi
              && Finished(all, windows[1..], keep, page.next, limit)
              && Followed(all, windows, keep, before, limit)
                 == page.items + Followed(all, windows[1..], keep, page.next, limit)
            else |windows| == 1 && Followed(all, windows, keep, before, limit) == page.items
  {
    hide PageOf;
    assert |windows| > 1 ==> windows[1].hi >= windows[0].hi;
  }

  lemma {:induction false} FollowedFrom(all: seq<Stored>, windows: seq<Window>, keep: Keep, before: nat, limit: nat)
    returns (floor: nat)
    requires Growing(all, windows) && Numbered(all) && limit >= 1
    requires Finished(all, windows, keep, before, limit) && 1 <= before <= windows[0].hi + 1
    ensures floor <= windows[|windows| - 1].lo
    ensures Covers(all, Followed(all, windows, keep, before, limit), floor, before, keep)
    decreases |windows|
  {
    FollowedUnfolds(all, windows, keep, before, limit);
    hide PageOf, Numbered, Growing, Finished, Followed, Covers;
    var w := windows[0];
    var page := PageOf(all, w.lo, w.hi, keep, before, 0, limit);
    if page.hasMore {
      FullPage(all, w, keep, before, limit);
      NextCursor(all, page.items, page.next, before, keep);
      floor := FollowedFrom(all, windows[1..], keep, page.next, limit);
      CoversMore(all, page.items, Followed(all, windows[1..], keep, page.next, limit), floor, page.next, before, keep);
    } else {
      floor := LastPage(all, w, keep, before, limit);
    }
  }

  lemma NextCursor(all: seq<Stored>, list: seq<Entry>, next: nat, before: nat, keep: Keep)
    requires next > 0 && Covers(all, list, next - 1, before, keep)
    ensures next <= before
  {
  }

  /**
   Following the cursor from the newest entry lists every match that was there at the start and is still
   retained at the end exactly once, newest first, whatever was appended between the pages; nothing
   that does not match, and nothing appended since, is listed.
   */
  lemma CursorListsEachMatchOnce(all: seq<Stored>, windows: seq<Window>, keep: Keep, limit: nat)
    requires Growing(all, windows) && Numbered(all) && limit >= 1 && Finished(all, windows, keep, 0, limit)
    ensures NewestFirst(Followed(all, windows, keep, 0, limit))
    ensures Genuine(all, 0, windows[0].hi, keep, Followed(all, windows, keep, 0, limit))
    ensures forall i :: windows[|windows| - 1].lo <= i < windows[0].hi && keep(all[i].entry) ==>
              all[i].entry in Followed(all, windows, keep, 0, limit)
  {
    FinishedIsNotEmpty(all, windows, keep, limit);
    hide Followed, Finished, NewestFirst, Numbered, Matches, Growing, Genuine, PageOf;
    var hi := windows[0].hi;
    SameAsNoCursor(all, windows, keep, limit);
    var floor := FollowedFrom(all, windows, keep, hi + 1, limit);
    MatchesDescend(all, floor, hi, keep);
    LowerFloor(all, 0, floor, hi, keep, Followed(all, windows, keep, 0, limit));
    forall i | windows[|windows| - 1].lo <= i < hi && keep(all[i].entry)
      ensures all[i].entry in Followed(all, windows, keep, 0, limit)
    {
      MatchesContain(all, floor, hi, keep, i);
    }
  }

  lemma FinishedIsNotEmpty(all: seq<Stored>, windows: seq<Window>, keep: Keep, limit: nat)
    requires Growing(all, windows) && Finished(all, windows, keep, 0, limit)
    ensures windows != [] && windows[0].lo <= windows[0].hi <= |all|
    ensures windows[|windows| - 1].lo <= |all|
  {
    hide PageOf;
  }

  lemma LowerFloor(all: seq<Stored>, lower: nat, lo: nat, hi: nat, keep: Keep, list: seq<Entry>)
    requires lower <= lo && Genuine(all, lo, hi, keep, list)
    ensures Genuine(all, lower, hi, keep, list)
  {
  }

  lemma SameAsNoCursor(all: seq<Stored>, windows: seq<Window>, keep: Keep, limit: nat)
    requires Growing(all, windows) && windows != []
    ensures Followed(all, windows, keep, 0, limit) == Followed(all, windows, keep, windows[0].hi + 1, limit)
    ensures Finished(all, windows, keep, 0, limit) == Finished(all, windows, keep, windows[0].hi + 1, limit)
  {
    var w := windows[0];
    assert PageOf(all, w.lo, w.hi, keep, 0, 0, limit) == PageOf(all, w.lo, w.hi, keep, w.hi + 1, 0, limit);
    hide PageOf;
  }
}
