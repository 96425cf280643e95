/**
 The search for the messages of an alias, window by window over 32-bit UIDs, and the driver that feeds
 the returned cursor back.
 */
module UidScan {
  import opened Wrappers
  import opened Sorting

  type Uint32 = x: int | 0 <= x < 0x1_0000_0000

  const WINDOW: int := 4096

  datatype ScanError = InvalidWindow | SearchFailed | UnexpectedUid(uid: int) | DuplicateUid(uid: int)

  /** `uids` are new matches; the mailbox has been searched through `cursor`. */
  datatype Found = Found(uids: seq<int>, more: bool, cursor: Uint32)

  predicate Within(uid: int, last: Uint32, upper: Uint32) { last < uid <= upper }

  /** The UIDs before the i-th are distinct and in range, and the i-th is not. */
  ghost predicate FirstFault(uids: seq<int>, i: nat, last: Uint32, upper: Uint32, error: ScanError)
    requires i < |uids|
  {
    && Distinct(uids[..i]) && AllWithin(uids[..i], last, upper)
    && if Within(uids[i], last, upper) then error == DuplicateUid(uids[i]) && uids[i] in uids[..i]
       else error == UnexpectedUid(uids[i])
  }

  /** Accepts an answer exactly when its UIDs are distinct and in range, and sorts it. */
  method Validate(discovered: seq<Uint32>, last: Uint32, upper: Uint32) returns (r: Result<seq<int>, ScanError>)
    ensures r.Ok? <==> Distinct(discovered) && forall i :: 0 <= i < |discovered| ==> Within(discovered[i], last, upper)
    ensures r.Ok? ==> r.value == Sort(discovered)
    ensures r.Fail? ==> exists i :: 0 <= i < |discovered| && FirstFault(discovered, i, last, upper, r.error)
  {
    var uids: seq<int> := [];
    var seen: set<int> := {};
    for i := 0 to |discovered|
      invariant uids == discovered[..i] && Distinct(uids)
      invariant forall k :: 0 <= k < i ==> Within(discovered[k], last, upper) && discovered[k] in seen
      invariant forall u :: u in seen ==> exists k :: 0 <= k < i && discovered[k] == u
    {
      var uid := discovered[i];
      if uid <= last || uid > upper {
        assert FirstFault(discovered, i, last, upper, UnexpectedUid(uid));
        return Fail(UnexpectedUid(uid));
      }
      if uid in seen {
        assert FirstFault(discovered, i, last, upper, DuplicateUid(uid));
        return Fail(DuplicateUid(uid));
      }
      seen := seen + {uid};
      uids := uids + [uid];
    }
    assert discovered[..|discovered|] == discovered;
    r := Ok(Sort(uids));
  }

  /** Upper end of the window searched from a cursor; the addition stays within 32 bits. */
  function WindowEnd(last: Uint32, upper: Uint32): (end: Uint32)
    requires last <= upper
    ensures last <= end <= upper && end - last <= 4096 && (end == upper || end - last == 4096)
  {
    if upper - last > WINDOW then last + WINDOW else upper
  }

  /** `answer` is what the server returns for a search of the UIDs from last + 1 to the window's end. */
  method Discover(last: Uint32, upper: Uint32, limit: int, answer: Result<seq<Uint32>, ScanError>)
    returns (r: Result<Found, ScanError>)
    ensures limit < 1 || last > upper ==> r == Fail(InvalidWindow)
    ensures limit >= 1 && last == upper ==> r == Ok(Found([], false, upper))
    ensures limit >= 1 && last < upper && answer.Fail? ==> r == Fail(answer.error)
    ensures limit >= 1 && last < upper && answer.Ok? ==>
              var end := WindowEnd(last, upper);
              && (r.Ok? <==> Distinct(answer.value)
                             && forall i :: 0 <= i < |answer.value| ==> Within(answer.value[i], last, end))
              && (r.Ok? ==> Progress(answer.value, last, upper, limit, r.value))
              && (r.Fail? ==> exists i :: 0 <= i < |answer.value| && FirstFault(answer.value, i, last, end, r.error))
  {
    if limit < 1 || last > upper { return Fail(InvalidWindow); }
    if last == upper { return Ok(Found([], false, upper)); }
    var end: Uint32 := upper;
    if upper - last > WINDOW { end := last + WINDOW; }
    var first: Uint32 := last + 1;
    if answer.Fail? { return Fail(answer.error); }
    var valid := Validate(answer.value, last, end);
    assert end == WindowEnd(last, upper);
    hide WindowEnd, FirstFault;
    if valid.Fail? { return Fail(valid.error); }
    var uids := valid.value;
    SortedAnswer(answer.value, last, end);
    if |uids| > limit {
      assert Within(uids[limit - 1], last, end) && Within(uids[limit], last, end);
      FirstOf(uids, limit);
      r := Ok(Found(uids[..limit], true, uids[limit - 1]));
    } else {
      r := Ok(Found(uids, end < upper, end));
    }
  }

  predicate AllWithin(uids: seq<int>, last: Uint32, upper: Uint32) {
    forall i :: 0 <= i < |uids| ==> Within(uids[i], last, upper)
  }

  lemma SortedAnswer(answer: seq<Uint32>, last: Uint32, end: Uint32)
    requires Distinct(answer) && forall i :: 0 <= i < |answer| ==> Within(answer[i], last, end)
    ensures StrictlyAscending(Sort(answer)) && AllWithin(Sort(answer), last, end) && |Sort(answer)| == |answer|
    ensures forall u :: u in Sort(answer) <==> u in answer
  {
    SortOfDistinct(answer);
    SortSorts(answer);
    assert |multiset(Sort(answer))| == |multiset(answer)|;
    forall u
      ensures u in Sort(answer) <==> u in answer
    {
      SortMembers(answer, u);
    }
    hide Sort;
    forall i | 0 <= i < |Sort(answer)|
      ensures Within(Sort(answer)[i], last, end)
    {
      assert Sort(answer)[i] in answer;
    }
  }

  lemma FirstOf(uids: seq<int>, n: nat)
    requires StrictlyAscending(uids) && 1 <= n <= |uids|
    ensures StrictlyAscending(uids[..n])
    ensures forall u :: u in uids[..n] <==> u in uids && u <= uids[n - 1]
  {
    forall u | u in uids && u <= uids[n - 1]
      ensures u in uids[..n]
    {
      var k :| 0 <= k < |uids| && uids[k] == u;
      assert k < n && uids[..n][k] == u;
    }
  }

  /**
   One answer: the found UIDs up to the new cursor, ascending. The cursor stops at the last UID within the limit if
   there are more, and otherwise at the end of the window.
   */
  ghost predicate Progress(answer: seq<int>, last: Uint32, upper: Uint32, limit: int, found: Found)
    requires last <= upper && limit >= 1
  {
    && last < found.cursor <= upper && (found.more <==> found.cursor < upper)
    && (if |answer| > limit then |found.uids| == limit && found.cursor == found.uids[limit - 1]
        else found.cursor == WindowEnd(last, upper))
    && StrictlyAscending(found.uids) && AllWithin(found.uids, last, found.cursor)
    && |found.uids| <= limit && found.cursor - last <= WINDOW
    && forall u :: Within(u, last, found.cursor) ==> (u in found.uids <==> u in answer)
  }

  // ---------------------------------------------------------------- driving the scan

  /** The answer to the n-th search, for a range; a search may fail, but what it returns is true of the mailbox. */
  type Server = (nat, Uint32, Uint32) -> Result<seq<Uint32>, ScanError>

  ghost predicate Truthful(server: Server, matching: set<int>) {
    forall n: nat, last: Uint32, end: Uint32 {:trigger server(n, last, end)} ::
      server(n, last, end).Ok? ==> Exact(server(n, last, end).value, last, end, matching)
  }

  ghost predicate Exact(uids: seq<int>, last: Uint32, end: Uint32, matching: set<int>) {
    && Distinct(uids) && AllWithin(uids, last, end)
    && forall u :: Within(u, last, end) ==> (u in uids <==> u in matching)
  }

  /**
   Feeding the cursor back finds every matching UID up to the cursor exactly once, in ascending order,
   and reaches the upper end unless a search fails.
   */
  method Scan(server: Server, ghost matching: set<int>, last: Uint32, upper: Uint32, limit: int)
    returns (all: seq<int>, cursor: Uint32, failed: Option<ScanError>)
    requires Truthful(server, matching) && limit >= 1 && last <= upper
    ensures last <= cursor <= upper && (failed.None? ==> cursor == upper)
    ensures StrictlyAscending(all) && AllWithin(all, last, cursor)
    ensures forall u :: Within(u, last, cursor) ==> (u in all <==> u in matching)
    ensures failed.Some? ==>
              cursor < upper && exists n: nat :: server(n, cursor, WindowEnd(cursor, upper)) == Fail(failed.value)
  {
    all, cursor, failed := [], last, None;
    var more, n: nat := last < upper, 0;
    while more
      invariant last <= cursor <= upper && (more <==> cursor < upper)
      invariant StrictlyAscending(all) && AllWithin(all, last, cursor)
      invariant forall u :: Within(u, last, cursor) ==> (u in all <==> u in matching)
      decreases upper - cursor
    {
      var answer := server(n, cursor, WindowEnd(cursor, upper));
      var r := Discover(cursor, upper, limit, answer);
      if answer.Fail? {
        assert server(n, cursor, WindowEnd(cursor, upper)) == Fail(r.error);
        failed := Some(r.error);
        return;
      }
      assert Exact(answer.value, cursor, WindowEnd(cursor, upper), matching);
      Extend(all, last, cursor, answer.value, upper, limit, r.value, matching);
      all := all + r.value.uids;
      more, cursor, n := r.value.more, r.value.cursor, n + 1;
    }
  }

  lemma Extend(
      all: seq<int>, last: Uint32, cursor: Uint32, answer: seq<int>, upper: Uint32, limit: int, found: Found,
      matching: set<int>)
    requires limit >= 1 && last <= cursor < upper && StrictlyAscending(all) && AllWithin(all, last, cursor)
    requires forall u :: Within(u, last, cursor) ==> (u in all <==> u in matching)
    requires Exact(answer, cursor, WindowEnd(cursor, upper), matching) && Progress(answer, cursor, upper, limit, found)
    ensures StrictlyAscending(all + found.uids) && AllWithin(all + found.uids, last, found.cursor)
    ensures forall u :: Within(u, last, found.cursor) ==> (u in all + found.uids <==> u in matching)
  {
  }
}
