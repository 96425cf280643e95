/**
 The hourly plan of automatic alias creations: how a plan is drawn, consumed and shifted.
 A plan is the list of its deadlines; times are nanoseconds.
 */
module CreationPlan {
  import opened Wrappers
  import opened Sorting

  const SECOND: int := 1_000_000_000
  const GAP: int := 120 * SECOND
  const CYCLE: int := 3600 * SECOND
  const SLOTS: nat := 23
  const SPARE: nat := 840              // seconds of the cycle beyond 23 minimum gaps

  /** `draws(k)` is the k-th answer of the random source, asked for an index below 23. */
  type Draws = nat -> int

  /** Any two deadlines are at least two minutes apart, in the order in which they are listed. */
  predicate Spaced(plan: seq<int>) {
    forall i, j :: 0 <= i < j < |plan| ==> plan[j] - plan[i] >= GAP
  }

  /** What the store may hold: 1 to 23 deadlines at least two minutes apart. */
  predicate Good(plan: seq<int>) {
    1 <= |plan| <= SLOTS && Spaced(plan)
  }

  // ---------------------------------------------------------------- drawing a plan

  predicate InRange(draws: Draws, n: nat) {
    forall k :: 0 <= k < n ==> 0 <= draws(k) < SLOTS
  }

  /** How many of the first n draws fell into a bucket. */
  function Count(draws: Draws, n: nat, bucket: int): nat {
    if n == 0 then 0 else Count(draws, n - 1, bucket) + (if draws(n - 1) == bucket then 1 else 0)
  }

  function GapOf(draws: Draws, bucket: int): int { GAP + SECOND * Count(draws, SPARE, bucket) }

  function Deadline(draws: Draws, anchor: int, k: nat): int {
    if k == 0 then anchor else Deadline(draws, anchor, k - 1) + GapOf(draws, k - 1)
  }

  function FreshPlan(draws: Draws, anchor: int): (plan: seq<int>)
    ensures |plan| == SLOTS
  {
    seq(SLOTS, (k: nat) => Deadline(draws, anchor, k + 1))
  }

  function NewPlan(draws: Draws, anchor: int): Option<seq<int>> {
    if InRange(draws, SPARE) then Some(FreshPlan(draws, anchor)) else None
  }

  method GeneratePlan(anchor: int, draws: Draws) returns (r: Option<seq<int>>)
    ensures r == NewPlan(draws, anchor)
  {
    var gaps := new int[SLOTS](_ => GAP);
    var index := 0;
    while index < SPARE
      invariant 0 <= index <= SPARE && InRange(draws, index)
      invariant forall b :: 0 <= b < SLOTS ==> gaps[b] == GAP + SECOND * Count(draws, index, b)
    {
      var bucket := draws(index);
      if bucket < 0 || bucket >= SLOTS { return None; }
      gaps[bucket] := gaps[bucket] + SECOND;
      index := index + 1;
    }
    assert forall b :: 0 <= b < SLOTS ==> gaps[b] == GapOf(draws, b);
    var planned := Deadlines(gaps, draws, anchor);
    r := Some(planned);
  }

  /** Adds up the gaps. */
  method Deadlines(gaps: array<int>, ghost draws: Draws, anchor: int) returns (planned: seq<int>)
    requires gaps.Length == SLOTS && forall b :: 0 <= b < SLOTS ==> gaps[b] == GapOf(draws, b)
    ensures planned == FreshPlan(draws, anchor)
  {
    hide GapOf;
    planned := [];
    var next := anchor;
    while |planned| < SLOTS
      invariant |planned| <= SLOTS && next == Deadline(draws, anchor, |planned|)
      invariant forall k :: 0 <= k < |planned| ==> planned[k] == Deadline(draws, anchor, k + 1)
    {
      next := next + gaps[|planned|];
      planned := planned + [next];
    }
  }

  /** The draws of all buckets below m. */
  function Total(draws: Draws, n: nat, m: nat): nat {
    if m == 0 then 0 else Total(draws, n, m - 1) + Count(draws, n, m - 1)
  }

  lemma {:induction false} TotalOneMore(draws: Draws, n: nat, m: nat)
    ensures Total(draws, n + 1, m) == Total(draws, n, m) + (if 0 <= draws(n) < m then 1 else 0)
  {
    if m > 0 { TotalOneMore(draws, n, m - 1); }
  }

  lemma {:induction false} TotalNone(draws: Draws, m: nat)
    ensures Total(draws, 0, m) == 0
  {
    if m > 0 { TotalNone(draws, m - 1); }
  }

  lemma {:induction false} TotalIsAll(draws: Draws, n: nat, m: nat)
    requires InRange(draws, n) && m == SLOTS
    ensures Total(draws, n, m) == n
  {
    if n == 0 {
      TotalNone(draws, m);
    } else {
      TotalIsAll(draws, n - 1, m);
      TotalOneMore(draws, n - 1, m);
    }
  }

  lemma {:induction false} DeadlineIsTotal(draws: Draws, anchor: int, k: nat)
    ensures Deadline(draws, anchor, k) == anchor + k * GAP + SECOND * Total(draws, SPARE, k)
  {
    if k > 0 { DeadlineIsTotal(draws, anchor, k - 1); }
  }

  lemma {:induction false} DeadlinesClimb(draws: Draws, anchor: int, i: nat, j: nat)
    requires i < j
    ensures Deadline(draws, anchor, j) - Deadline(draws, anchor, i) >= GAP
  {
    if i < j - 1 { DeadlinesClimb(draws, anchor, i, j - 1); }
  }

  lemma LastDeadline(draws: Draws, anchor: int, n: nat)
    requires InRange(draws, SPARE) && n == SLOTS
    ensures Deadline(draws, anchor, n) == anchor + CYCLE
  {
    DeadlineIsTotal(draws, anchor, n);
    TotalIsAll(draws, SPARE, n);
  }

  /** Whatever the random source answers, 23 gaps of at least two minutes fill exactly one hour. */
  lemma FreshPlanFillsTheHour(draws: Draws, anchor: int)
    requires InRange(draws, SPARE)
    ensures var plan := FreshPlan(draws, anchor);
            && Good(plan) && |plan| == SLOTS
            && plan[0] >= anchor + GAP
            && plan[SLOTS - 1] == anchor + CYCLE
  {
    var plan := FreshPlan(draws, anchor);
    forall i, j | 0 <= i < j < |plan|
      ensures plan[j] - plan[i] >= GAP
    {
      DeadlinesClimb(draws, anchor, i + 1, j + 1);
    }
    DeadlinesClimb(draws, anchor, 0, 1);
    LastDeadline(draws, anchor, |plan|);
    hide Deadline, InRange;
  }

  // ---------------------------------------------------------------- the deadlines still ahead

  predicate Ahead(t: int, expected: int, current: bool) {
    if current then t >= expected else t > expected
  }

  function Kept(planned: seq<int>, expected: int, current: bool): (kept: seq<int>)
    ensures |kept| <= |planned|
  {
    if planned == [] then []
    else
      var last := planned[|planned| - 1];
      Kept(planned[..|planned| - 1], expected, current) + (if Ahead(last, expected, current) then [last] else [])
  }

  /** The deadlines after `expected`, or from it on if `current`, in order of time. */
  function Future(planned: seq<int>, expected: int, current: bool): seq<int> {
    Sort(Kept(planned, expected, current))
  }

  method FuturePlan(planned: seq<int>, expected: int, current: bool) returns (result: seq<int>)
    ensures result == Future(planned, expected, current)
  {
    result := [];
    for index := 0 to |planned|
      invariant result == Kept(planned[..index], expected, current)
    {
      assert planned[..index + 1][..index] == planned[..index];
      var value := planned[index];
      if (if current then !(value < expected) else value > expected) { result := result + [value]; }
    }
    assert planned[..|planned|] == planned;
    result := Sort(result);
  }

  lemma {:induction false} KeptCounts(planned: seq<int>, expected: int, current: bool, t: int)
    ensures multiset(Kept(planned, expected, current))[t]
            == if Ahead(t, expected, current) then multiset(planned)[t] else 0
  {
    if planned != [] {
      var front, last := planned[..|planned| - 1], planned[|planned| - 1];
      KeptCounts(front, expected, current, t);
      assert planned == front + [last];
      assert multiset(planned) == multiset(front) + multiset{last};
    }
  }

  /** Filtering and sorting lose and invent no deadline. */
  lemma FutureIsWhatLiesAhead(planned: seq<int>, expected: int, current: bool, t: int)
    ensures Ascending(Future(planned, expected, current))
    ensures multiset(Future(planned, expected, current))[t]
            == if t > expected || (current && t == expected) then multiset(planned)[t] else 0
  {
    SortSorts(Kept(planned, expected, current));
    KeptCounts(planned, expected, current, t);
  }

  lemma {:induction false} KeptAll(plan: seq<int>, expected: int, current: bool)
    requires forall i :: 0 <= i < |plan| ==> Ahead(plan[i], expected, current)
    ensures Kept(plan, expected, current) == plan
  {
    if plan != [] { KeptAll(plan[..|plan| - 1], expected, current); }
  }

  lemma {:induction false} KeptTail(plan: seq<int>, expected: int)
    requires plan != [] && plan[0] == expected
    requires forall i :: 0 < i < |plan| ==> plan[i] > expected
    ensures Kept(plan, expected, false) == plan[1..]
  {
    if |plan| > 1 {
      var front := plan[..|plan| - 1];
      KeptTail(front, expected);
      assert plan[1..] == front[1..] + [plan[|plan| - 1]];
    } else {
      assert plan[..0] == [];
    }
  }

  /** For a well-spaced plan whose first deadline is due, what lies ahead is the plan itself, or its tail. */
  lemma FutureOfSpaced(plan: seq<int>)
    requires plan != [] && Spaced(plan)
    ensures Future(plan, plan[0], true) == plan
    ensures Future(plan, plan[0], false) == plan[1..]
  {
    hide Kept, Sort;
    KeptAll(plan, plan[0], true);
    KeptTail(plan, plan[0]);
    assert Ascending(plan) && Ascending(plan[1..]);
    hide Spaced, Ascending;
    SortOfAscending(plan);
    SortOfAscending(plan[1..]);
  }

  // ---------------------------------------------------------------- consuming and shifting a plan

  function Shifted(plan: seq<int>, shift: int): (shifted: seq<int>)
    ensures |shifted| == |plan|
  {
    seq(|plan|, i requires 0 <= i < |plan| => plan[i] + shift)
  }

  /** The plan moved as a whole: one that starts too early starts at `earliest`, any other is left alone. */
  function NotBefore(plan: seq<int>, earliest: int): (moved: seq<int>)
    ensures |moved| == |plan|
    ensures plan != [] && plan[0] < earliest ==> moved[0] == earliest
    ensures plan != [] && plan[0] >= earliest ==> moved == plan
    ensures Spaced(plan) ==> Spaced(moved)
    ensures forall i :: 0 <= i < |plan| ==> moved[i] - plan[i] == moved[0] - plan[0]
  {
    if plan != [] && plan[0] < earliest then Shifted(plan, earliest - plan[0]) else plan
  }

  method MoveTo(plan: seq<int>, earliest: int) returns (moved: seq<int>)
    requires plan != []
    ensures moved == NotBefore(plan, earliest)
  {
    moved := plan;
    if moved[0] < earliest {
      var shift := earliest - moved[0];
      for index := 0 to |moved|
        invariant |moved| == |plan|
        invariant forall i :: 0 <= i < |plan| ==> moved[i] == if i < index then plan[i] + shift else plan[i]
      {
        moved := moved[index := moved[index] + shift];
      }
      assert moved == Shifted(plan, shift);
    }
  }

  function AfterClaim(planned: seq<int>, expected: int, attemptedAt: int, draws: Draws): Option<seq<int>> {
    var remaining := Future(planned, expected, false);
    if remaining == [] || |remaining| > SLOTS - 1 || !Spaced(remaining)
    then NewPlan(draws, if attemptedAt > expected then attemptedAt else expected)
    else Some(NotBefore(remaining, attemptedAt + GAP))
  }

  method ValidPlan(planned: seq<int>) returns (valid: bool)
    ensures valid <==> Spaced(planned)
  {
    if |planned| == 0 { return true; }
    for index := 1 to |planned|
      invariant Spaced(planned[..index])
    {
      if planned[index] - planned[index - 1] < GAP { return false; }
      assert index >= 2 ==> planned[..index][index - 1] == planned[index - 1];
    }
    assert planned[..|planned|] == planned;
    valid := true;
  }

  method PlanAfterClaim(planned: seq<int>, expected: int, attemptedAt: int, draws: Draws)
    returns (r: Option<seq<int>>)
    ensures r == AfterClaim(planned, expected, attemptedAt, draws)
  {
    var remaining := FuturePlan(planned, expected, false);
    var valid := ValidPlan(remaining);
    if |remaining| > SLOTS - 1 || !valid { remaining := []; }
    if |remaining| == 0 {
      var anchor := expected;
      if attemptedAt > anchor { anchor := attemptedAt; }
      r := GeneratePlan(anchor, draws);
      return;
    }
    var moved := MoveTo(remaining, attemptedAt + GAP);
    r := Some(moved);
  }

  /** From any stored plan, a claim leaves a well-spaced plan that starts two minutes after the attempt. */
  lemma ClaimLeavesGoodPlan(planned: seq<int>, expected: int, attemptedAt: int, draws: Draws)
    ensures var r := AfterClaim(planned, expected, attemptedAt, draws);
            r.Some? ==> Good(r.value) && r.value[0] >= attemptedAt + GAP && r.value[0] > expected
  {
    var remaining := Future(planned, expected, false);
    if remaining != [] {
      FutureIsWhatLiesAhead(planned, expected, false, remaining[0]);
      assert remaining[0] in multiset(remaining);
    }
    if InRange(draws, SPARE) {
      FreshPlanFillsTheHour(draws, if attemptedAt > expected then attemptedAt else expected);
    }
  }

  /** `moved` is `plan` with every deadline put off by the same time, just so that it starts no earlier than asked. */
  predicate MovedTo(plan: seq<int>, moved: seq<int>, earliest: int)
    requires plan != []
  {
    && |moved| == |plan|
    && moved[0] == (if plan[0] < earliest then earliest else plan[0])
    && forall i :: 0 <= i < |plan| ==> moved[i] - moved[0] == plan[i] - plan[0]
  }

  /**
   A claim keeps the later deadlines, moved only as far as the two minutes after the attempt ask for. If there are
   none, or too many, or they are too close, it draws 23 new ones that end an hour after the attempt or the deadline.
   */
  lemma ClaimKeepsWhatLiesAhead(planned: seq<int>, expected: int, attemptedAt: int, draws: Draws)
    ensures var ahead, r := Future(planned, expected, false), AfterClaim(planned, expected, attemptedAt, draws);
            if Good(ahead) && |ahead| < 23 then r.Some? && MovedTo(ahead, r.value, attemptedAt + 120 * SECOND)
            else
              && (r.Some? <==> forall k :: 0 <= k < 840 ==> 0 <= draws(k) < 23)
              && (r.Some? ==>
                    && |r.value| == 23
                    && r.value[22] == (if attemptedAt > expected then attemptedAt else expected) + 3600 * SECOND)
  {
    if InRange(draws, SPARE) {
      FreshPlanFillsTheHour(draws, if attemptedAt > expected then attemptedAt else expected);
    }
    hide Future, FreshPlan, Spaced;
  }

  function ShiftCurrent(planned: seq<int>, expected: int, earliest: int, draws: Draws): Option<seq<int>> {
    var current := Future(planned, expected, true);
    if planned == [] || current == [] || |current| > SLOTS || !Spaced(current) then NewPlan(draws, earliest - GAP)
    else Some(NotBefore(current, earliest))
  }

  method ShiftCurrentPlan(planned: seq<int>, expected: int, earliest: int, draws: Draws)
    returns (r: Option<seq<int>>)
    ensures r == ShiftCurrent(planned, expected, earliest, draws)
  {
    if |planned| == 0 {
      r := GeneratePlan(earliest - GAP, draws);
      return;
    }
    var current := FuturePlan(planned, expected, true);
    var valid := ValidPlan(current);
    if |current| == 0 || |current| > SLOTS || !valid {
      r := GeneratePlan(earliest - GAP, draws);
      return;
    }
    var moved := MoveTo(current, earliest);
    r := Some(moved);
  }

  /** From any stored plan, shifting leaves a well-spaced plan that starts no earlier than asked. */
  lemma ShiftLeavesGoodPlan(planned: seq<int>, expected: int, earliest: int, draws: Draws)
    ensures var r := ShiftCurrent(planned, expected, earliest, draws);
            r.Some? ==> Good(r.value) && r.value[0] >= earliest
  {
    if InRange(draws, SPARE) { FreshPlanFillsTheHour(draws, earliest - GAP); }
  }

  /**
   Postponing keeps the deadlines from the due one on, moved only as far as asked. If there are none, or too many, or
   they are too close, it draws 23 new ones that end an hour after two minutes before the asked time.
   */
  lemma ShiftKeepsWhatLiesAhead(planned: seq<int>, expected: int, earliest: int, draws: Draws)
    ensures var ahead, r := Future(planned, expected, true), ShiftCurrent(planned, expected, earliest, draws);
            if Good(ahead) then r.Some? && MovedTo(ahead, r.value, earliest)
            else
              && (r.Some? <==> forall k :: 0 <= k < 840 ==> 0 <= draws(k) < 23)
              && (r.Some? ==> |r.value| == 23 && r.value[22] == earliest - 120 * SECOND + 3600 * SECOND)
  {
    if planned == [] { FutureIsWhatLiesAhead(planned, expected, true, expected); }
    if InRange(draws, SPARE) { FreshPlanFillsTheHour(draws, earliest - GAP); }
    hide FreshPlan, Spaced;
  }

  /** A fresh plan whose first deadline is replaced by the end of a cooldown. */
  function StartingAt(draws: Draws, first: int): Option<seq<int>> {
    if InRange(draws, SPARE) then Some(FreshPlan(draws, first)[0 := first]) else None
  }

  method NewPlanStartingAt(first: int, draws: Draws) returns (r: Option<seq<int>>)
    ensures r == StartingAt(draws, first)
  {
    r := GeneratePlan(first, draws);
    if r.Some? { r := Some(r.value[0 := first]); }
  }

  lemma StartingAtIsGood(draws: Draws, first: int)
    requires InRange(draws, SPARE)
    ensures Good(StartingAt(draws, first).value) && StartingAt(draws, first).value[0] == first
    ensures StartingAt(draws, first).value[SLOTS - 1] == first + CYCLE
  {
    FreshPlanFillsTheHour(draws, first);
  }

  // ---------------------------------------------------------------- slots of a stored plan

  /** The slot that a stored plan assigns to the deadline that is due. */
  function Slot(planned: seq<int>, expected: int): int {
    SLOTS - |Future(planned, expected, true)|
  }

  /** A stored plan of k deadlines has used up 23 - k slots. */
  lemma SlotOfGood(plan: seq<int>)
    requires Good(plan)
    ensures Slot(plan, plan[0]) == SLOTS - |plan|
  {
    FutureOfSpaced(plan);
    hide Future;
  }

  /** Claiming the due deadline of a good plan drops it, and draws a new plan only after the last one. */
  lemma ClaimConsumes(plan: seq<int>, attemptedAt: int, draws: Draws)
    requires Good(plan)
    ensures AfterClaim(plan, plan[0], attemptedAt, draws)
            == if |plan| == 1 then NewPlan(draws, if attemptedAt > plan[0] then attemptedAt else plan[0])
               else Some(NotBefore(plan[1..], attemptedAt + GAP))
  {
    FutureOfSpaced(plan);
    assert Spaced(plan[1..]);
    hide Future;
  }

  /** Claiming or skipping the due deadline advances the slot by one and starts over after slot 22. */
  lemma ClaimAdvancesSlot(plan: seq<int>, attemptedAt: int, draws: Draws)
    requires Good(plan)
    ensures 0 <= Slot(plan, plan[0]) < SLOTS
    ensures var r := AfterClaim(plan, plan[0], attemptedAt, draws);
            r.Some? ==>
              Slot(r.value, r.value[0]) == if Slot(plan, plan[0]) == SLOTS - 1 then 0 else Slot(plan, plan[0]) + 1
    ensures Slot(plan, plan[0]) < SLOTS - 1 ==> AfterClaim(plan, plan[0], attemptedAt, draws).Some?
  {
    FutureOfSpaced(plan);
    ClaimConsumes(plan, attemptedAt, draws);
    ClaimLeavesGoodPlan(plan, plan[0], attemptedAt, draws);
    var r := AfterClaim(plan, plan[0], attemptedAt, draws);
    if r.Some? { FutureOfSpaced(r.value); }
    hide Spaced, Future, FreshPlan, InRange, AfterClaim;
  }

  /** Postponing the due deadline of a good plan keeps its slot. */
  lemma ShiftKeepsSlot(plan: seq<int>, earliest: int, draws: Draws)
    requires Good(plan)
    ensures var r := ShiftCurrent(plan, plan[0], earliest, draws);
            r.Some? && Slot(r.value, r.value[0]) == Slot(plan, plan[0])
  {
    FutureOfSpaced(plan);
    FutureOfSpaced(NotBefore(plan, earliest));
  }
}
