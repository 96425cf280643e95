/**
 The floor-difference rule that shares the slots of a creation cycle between the two channels,
 and the channels that the slots of a consumed plan are given.
 */
module CreationSlots {
  import opened Wrappers
  import opened CreationPlan

  const WEB_LIMIT: nat := 4
  const WEB_ONLY_LIMIT: nat := 5

  datatype Channel = AppleAccount | ICloudWeb

  datatype Availability = Availability(appleAccount: bool, icloudWeb: bool)

  datatype Turn = Skipped | Runs(channel: Channel)

  /** The floor of slot * c / n rises at this slot. */
  predicate Picked(slot: int, c: nat, n: nat)
    requires n > 0
  {
    (slot + 1) * c / n > slot * c / n
  }

  predicate WebOnlyCreationSlot(slot: int) {
    0 <= slot < SLOTS && Picked(slot, WEB_ONLY_LIMIT, SLOTS)
  }

  function ScheduledChannel(slot: int): Channel {
    if 0 <= slot < SLOTS && Picked(slot, WEB_LIMIT, SLOTS) then ICloudWeb else AppleAccount
  }

  /** Creation always needs the Web directory; without the account channel, the five Web-only slots remain. */
  function TurnOf(slot: int, channels: Availability): Turn {
    if !channels.icloudWeb || (!channels.appleAccount && !WebOnlyCreationSlot(slot)) then Skipped
    else if !channels.appleAccount then Runs(ICloudWeb)
    else Runs(ScheduledChannel(slot))
  }

  // ---------------------------------------------------------------- the rule

  /** How many of the first k slots are picked. */
  function PickedBelow(k: nat, c: nat, n: nat): nat
    requires n > 0
  {
    if k == 0 then 0 else PickedBelow(k - 1, c, n) + (if Picked(k - 1, c, n) then 1 else 0)
  }

  lemma FloorStep(x: nat, c: nat, n: nat)
    requires 0 < n && c <= n
    ensures x / n <= (x + c) / n <= x / n + 1
  {
    var q, r := x / n, x % n;
    assert x == n * q + r;
    QuotientOf(x + c, if r + c < n then q else q + 1, n);
  }

  lemma QuotientOf(x: nat, q: int, n: nat)
    requires 0 < n && n * q <= x < n * q + n
    ensures x / n == q
  {
    var d := x / n;
    assert x == n * d + x % n;
    assert d < q ==> n * (d + 1) <= n * q;
    assert d > q ==> n * (q + 1) <= n * d;
  }

  /** The floor-difference rule picks exactly the floor of k * c / n of the first k slots. */
  lemma {:induction false} PickedIsFloor(k: nat, c: nat, n: nat)
    requires 0 < n && c <= n
    ensures PickedBelow(k, c, n) == k * c / n
  {
    if k == 0 {
      QuotientOf(0, 0, n);
    } else {
      PickedIsFloor(k - 1, c, n);
      assert k * c == (k - 1) * c + c;
      FloorStep((k - 1) * c, c, n);
    }
  }

  /** The rule picks c of n slots, and of any k consecutive slots within one of k * c / n, for every n and c <= n. */
  lemma AnyWindowIsFair(first: nat, k: nat, c: nat, n: nat)
    requires 0 < n && c <= n
    ensures var picked := PickedBelow(first + k, c, n) - PickedBelow(first, c, n);
            && k * c - n < n * picked < k * c + n
            && (k == n ==> picked == c)
  {
    PickedIsFloor(first, c, n);
    PickedIsFloor(first + k, c, n);
    Distribute(first, k, c);
    FloorsApart(first * c, k * c, n);
    if k == n { FloorShift(first * c, c, n); }
    hide PickedBelow;
  }

  lemma Distribute(a: int, b: int, c: int)
    ensures (a + b) * c == a * c + b * c
  {
  }

  lemma FloorsApart(x: nat, d: nat, n: nat)
    requires n > 0
    ensures d - n < n * ((x + d) / n - x / n) < d + n
  {
    var p, q := x / n, (x + d) / n;
    assert x == n * p + x % n && x + d == n * q + (x + d) % n;
    Distribute(q, -p, n);
  }

  /** The rule repeats after n slots. */
  lemma PickedIsPeriodic(slot: nat, c: nat, n: nat)
    requires 0 < n
    ensures Picked(slot % n, c, n) == Picked(slot, c, n)
  {
    var q, r := slot / n, slot % n;
    FloorShift(r * c, q * c, n);
    FloorShift((r + 1) * c, q * c, n);
    assert slot * c == r * c + n * (q * c) by { assert slot == n * q + r; }
    assert (slot + 1) * c == (r + 1) * c + n * (q * c);
  }

  lemma FloorShift(x: nat, d: nat, n: nat)
    requires 0 < n
    ensures (x + n * d) / n == x / n + d
  {
    var q := x / n;
    assert x == n * q + x % n;
    assert n * (q + d) == n * q + n * d;
    QuotientOf(x + n * d, q + d, n);
  }

  // ---------------------------------------------------------------- slots of a consumed plan

  datatype Event = Consume(at: int, draws: Draws) | Postpone(earliest: int, draws: Draws)

  /** The slots given to the deadlines of a plan that is consumed, postponed and, when used up, redrawn. */
  function SlotsOf(plan: seq<int>, events: seq<Event>): seq<int>
    requires Good(plan)
    decreases |events|
  {
    if events == [] then []
    else
      match events[0]
      case Consume(at, draws) =>
        ClaimLeavesGoodPlan(plan, plan[0], at, draws);
        (match AfterClaim(plan, plan[0], at, draws)
         case Some(next) => [Slot(plan, plan[0])] + SlotsOf(next, events[1..])
         case None => [Slot(plan, plan[0])])
      case Postpone(earliest, draws) =>
        ShiftLeavesGoodPlan(plan, plan[0], earliest, draws);
        (match ShiftCurrent(plan, plan[0], earliest, draws)
         case Some(next) => SlotsOf(next, events[1..])
         case None => [])
  }

  /** Slots are numbered from 0 in every round of 23. */
  function RoundOf(x: int): int { x % SLOTS }

  lemma NextRound(s: int, k: nat)
    requires 0 <= s < SLOTS && k > 0
    ensures RoundOf(s) == s
    ensures RoundOf((if s == SLOTS - 1 then 0 else s + 1) + (k - 1)) == RoundOf(s + k)
  {
  }

  lemma SlotsAfterConsume(plan: seq<int>, events: seq<Event>)
    requires Good(plan) && events != [] && events[0].Consume?
    ensures var r, s := AfterClaim(plan, plan[0], events[0].at, events[0].draws), Slot(plan, plan[0]);
            && 0 <= s < SLOTS
            && (r.Some? ==> Good(r.value) && Slot(r.value, r.value[0]) == if s == SLOTS - 1 then 0 else s + 1)
            && SlotsOf(plan, events) == [s] + (if r.Some? then SlotsOf(r.value, events[1..]) else [])
  {
    ClaimAdvancesSlot(plan, events[0].at, events[0].draws);
    ClaimLeavesGoodPlan(plan, plan[0], events[0].at, events[0].draws);
    hide Good, Slot, AfterClaim;
  }

  lemma SlotsAfterPostpone(plan: seq<int>, events: seq<Event>)
    requires Good(plan) && events != [] && events[0].Postpone?
    ensures var r := ShiftCurrent(plan, plan[0], events[0].earliest, events[0].draws);
            && r.Some? && Good(r.value) && Slot(r.value, r.value[0]) == Slot(plan, plan[0])
            && SlotsOf(plan, events) == SlotsOf(r.value, events[1..])
  {
    ShiftKeepsSlot(plan, events[0].earliest, events[0].draws);
    ShiftLeavesGoodPlan(plan, plan[0], events[0].earliest, events[0].draws);
    hide Good, Slot, ShiftCurrent;
  }

  lemma RoundRobinOneMore(s: int, rest: seq<int>, next: int)
    requires 0 <= s < SLOTS && next == if s == SLOTS - 1 then 0 else s + 1
    requires RoundRobin(rest, next)
    ensures RoundRobin([s] + rest, s)
  {
    forall k | 0 <= k < |rest| + 1
      ensures ([s] + rest)[k] == RoundOf(s + k)
    {
      if k > 0 { NextRound(s, k); }
    }
  }

  /** Slots are given in order, round after round, however often the plan is postponed. */
  lemma {:induction false} SlotsAreRoundRobin(plan: seq<int>, events: seq<Event>)
    requires Good(plan)
    ensures 0 <= Slot(plan, plan[0]) < SLOTS
    ensures RoundRobin(SlotsOf(plan, events), Slot(plan, plan[0]))
    decreases |events|
  {
    FutureOfSpaced(plan);
    if events != [] {
      hide RoundRobin, Good, Slot, AfterClaim, ShiftCurrent, SlotsOf;
      var s := Slot(plan, plan[0]);
      if events[0].Consume? {
        SlotsAfterConsume(plan, events);
        var r := AfterClaim(plan, plan[0], events[0].at, events[0].draws);
        if r.Some? {
          SlotsAreRoundRobin(r.value, events[1..]);
          RoundRobinOneMore(s, SlotsOf(r.value, events[1..]), Slot(r.value, r.value[0]));
        } else {
          RoundRobinOneMore(s, [], 0);
        }
      } else {
        SlotsAfterPostpone(plan, events);
        SlotsAreRoundRobin(ShiftCurrent(plan, plan[0], events[0].earliest, events[0].draws).value, events[1..]);
      }
    }
  }

  /** A fresh plan yields the slots 0 to 22 in order. */
  lemma FreshPlanSlots(draws: Draws, anchor: int, events: seq<Event>, k: nat)
    requires InRange(draws, SPARE) && Good(FreshPlan(draws, anchor))
    requires k < |SlotsOf(FreshPlan(draws, anchor), events)| && k < SLOTS
    ensures SlotsOf(FreshPlan(draws, anchor), events)[k] == k
  {
    hide SlotsOf, FreshPlan, Good, InRange, Slot;
    var plan := FreshPlan(draws, anchor);
    SlotsAreRoundRobin(plan, events);
    SlotOfGood(plan);
  }

  /** How many slots of a list are picked. */
  function PickedIn(slots: seq<int>, c: nat): nat {
    if slots == [] then 0
    else PickedIn(slots[..|slots| - 1], c) + (if Picked(slots[|slots| - 1], c, SLOTS) then 1 else 0)
  }

  predicate RoundRobin(slots: seq<int>, first: int) {
    forall k :: 0 <= k < |slots| ==> slots[k] == RoundOf(first + k)
  }

  lemma {:induction false} PickedInWindow(slots: seq<int>, first: nat, c: nat)
    requires RoundRobin(slots, first)
    ensures PickedIn(slots, c) == PickedBelow(first + |slots|, c, SLOTS) - PickedBelow(first, c, SLOTS)
  {
    if slots != [] {
      var m := |slots| - 1;
      PickedInWindow(slots[..m], first, c);
      PickedIsPeriodic(first + m, c, SLOTS);
      hide Picked;
    }
  }

  /**
   Any consecutively consumed slots are shared fairly: the picked ones are within one of c/23 of them.
   The window may cross from one plan into the next.
   */
  lemma ConsumptionIsFair(plan: seq<int>, events: seq<Event>, a: nat, b: nat, c: nat)
    requires Good(plan) && a <= b <= |SlotsOf(plan, events)| && c <= SLOTS
    ensures var picked := PickedIn(SlotsOf(plan, events)[a..b], c);
            && (b - a) * c - SLOTS < SLOTS * picked < (b - a) * c + SLOTS
            && (b - a == SLOTS ==> picked == c)
  {
    SlotsAreRoundRobin(plan, events);
    hide *;
    var slots, first := SlotsOf(plan, events), Slot(plan, plan[0]);
    WindowIsRoundRobin(slots, first, a, b);
    FairWindow(slots[a..b], first + a, c);
    WholeRound(b - a, c, PickedIn(slots[a..b], c));
  }

  lemma WholeRound(k: nat, c: nat, picked: nat)
    requires k * c - SLOTS < SLOTS * picked < k * c + SLOTS
    ensures k == SLOTS ==> picked == c
  {
  }

  lemma WindowIsRoundRobin(slots: seq<int>, first: int, a: nat, b: nat)
    requires RoundRobin(slots, first) && a <= b <= |slots|
    ensures RoundRobin(slots[a..b], first + a)
  {
    hide RoundOf;
    assert forall k :: 0 <= k < b - a ==> slots[a..b][k] == slots[a + k];
  }

  lemma FairWindow(window: seq<int>, first: nat, c: nat)
    requires RoundRobin(window, first) && c <= SLOTS
    ensures |window| * c - SLOTS < SLOTS * PickedIn(window, c) < |window| * c + SLOTS
  {
    PickedInWindow(window, first, c);
    hide RoundRobin, PickedIn, PickedBelow;
    AnyWindowIsFair(first, |window|, c, SLOTS);
  }

  /** Of any 23 slots in a row, 4 go to Web and 19 to the account channel; 5 run when the account channel is down. */
  lemma TwentyThreeSlots(plan: seq<int>, events: seq<Event>, a: nat)
    requires Good(plan) && a + SLOTS <= |SlotsOf(plan, events)|
    ensures var slots := SlotsOf(plan, events)[a..a + SLOTS];
            && Turns(slots, Availability(true, true), Runs(ICloudWeb)) == 4
            && Turns(slots, Availability(true, true), Runs(AppleAccount)) == 19
            && Turns(slots, Availability(false, true), Runs(ICloudWeb)) == 5
            && Turns(slots, Availability(false, true), Skipped) == 18
            && Turns(slots, Availability(true, false), Skipped) == 23
            && Turns(slots, Availability(false, false), Skipped) == 23
  {
    var slots := SlotsOf(plan, events)[a..a + SLOTS];
    SlotsAreRoundRobin(plan, events);
    WindowIsRoundRobin(SlotsOf(plan, events), Slot(plan, plan[0]), a, a + SLOTS);
    ConsumptionIsFair(plan, events, a, a + SLOTS, WEB_LIMIT);
    ConsumptionIsFair(plan, events, a, a + SLOTS, WEB_ONLY_LIMIT);
    TurnsArePicked(slots);
  }

  function Turns(slots: seq<int>, channels: Availability, turn: Turn): nat {
    if slots == [] then 0
    else Turns(slots[..|slots| - 1], channels, turn) + (if TurnOf(slots[|slots| - 1], channels) == turn then 1 else 0)
  }

  lemma {:induction false} TurnsArePicked(slots: seq<int>)
    requires forall k :: 0 <= k < |slots| ==> 0 <= slots[k] < SLOTS
    ensures Turns(slots, Availability(true, true), Runs(ICloudWeb)) == PickedIn(slots, WEB_LIMIT)
    ensures Turns(slots, Availability(true, true), Runs(AppleAccount)) == |slots| - PickedIn(slots, WEB_LIMIT)
    ensures Turns(slots, Availability(false, true), Runs(ICloudWeb)) == PickedIn(slots, WEB_ONLY_LIMIT)
    ensures Turns(slots, Availability(false, true), Skipped) == |slots| - PickedIn(slots, WEB_ONLY_LIMIT)
    ensures Turns(slots, Availability(true, true), Skipped) == 0
    ensures Turns(slots, Availability(true, false), Skipped) == |slots|
    ensures Turns(slots, Availability(false, false), Skipped) == |slots|
  {
    if slots != [] {
      TurnsArePicked(slots[..|slots| - 1]);
      hide Picked;
    }
  }
}
