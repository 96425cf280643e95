/**
 One account's creation schedule under any number of workers: each reads a snapshot, decides, and
 replaces the stored plan by a compare-and-swap on the next run; a claim then waits for an unbounded
 time before its remote creation starts.
 */
module CreationSchedule {
  import opened Wrappers
  import opened CreationPlan
  import opened CreationSlots

  const RATE_LIMIT_COOLDOWN: int := 3600 * SECOND

  // ---------------------------------------------------------------- one pass over a due schedule

  /** What a worker read earlier; it need not be what the store holds now. */
  datatype Snapshot = Snapshot(enabled: bool, accountId: int, next: Option<int>, last: Option<int>, planned: seq<int>)

  datatype Decision = Ignore | Replan | Defer(earliest: int) | Pass | Claim

  function Decide(snapshot: Snapshot, now: int, grace: int, channels: Option<Availability>): Decision {
    if !snapshot.enabled || snapshot.accountId < 1 || snapshot.next.None? then Ignore
    else
      var expected := snapshot.next.value;
      if now < expected then Ignore
      else if now - expected > grace then Replan
      else if snapshot.last.Some? && now < snapshot.last.value + GAP then Defer(snapshot.last.value + GAP)
      else if channels.None? then Ignore
      else if TurnOf(Slot(snapshot.planned, expected), channels.value).Skipped? then Pass
      else Claim
  }

  /** The plan with which the decision replaces the stored one; None when the random source failed. */
  function Replacement(snapshot: Snapshot, now: int, decision: Decision, draws: Draws): Option<seq<int>>
    requires snapshot.next.Some? && !decision.Ignore?
  {
    match decision
    case Replan => NewPlan(draws, now)
    case Defer(earliest) => ShiftCurrent(snapshot.planned, snapshot.next.value, earliest, draws)
    case _ => AfterClaim(snapshot.planned, snapshot.next.value, now, draws)
  }

  /** Every replacement is well spaced and starts after the deadline it replaces; a claim's, two minutes after it. */
  lemma ReplacementIsLater(snapshot: Snapshot, now: int, grace: nat, channels: Option<Availability>, draws: Draws)
    requires !Decide(snapshot, now, grace, channels).Ignore?
    ensures snapshot.next.Some? && snapshot.next.value <= now
    ensures var decision := Decide(snapshot, now, grace, channels);
            var r := Replacement(snapshot, now, decision, draws);
            r.Some? ==>
              && Good(r.value) && r.value[0] > snapshot.next.value
              && (decision.Claim? ==> r.value[0] >= now + GAP)
  {
    hide Good, NewPlan, AfterClaim, ShiftCurrent, Slot;
    ClaimLeavesGoodPlan(snapshot.planned, snapshot.next.value, now, draws);
    match Decide(snapshot, now, grace, channels)
    case Replan => NewPlanIsLater(draws, now);
    case Defer(earliest) => ShiftLeavesGoodPlan(snapshot.planned, snapshot.next.value, earliest, draws);
    case _ =>
  }

  lemma NewPlanIsLater(draws: Draws, anchor: int)
    ensures NewPlan(draws, anchor).Some? ==>
              Good(NewPlan(draws, anchor).value) && NewPlan(draws, anchor).value[0] >= anchor + GAP
  {
    if InRange(draws, SPARE) { FreshPlanFillsTheHour(draws, anchor); }
  }

  /** How long a rate-limited creation defers the schedule. */
  function CooldownDelay(budgetWait: bool, localDelay: int, retryDelay: int): (delay: int)
    ensures delay >= GAP && delay >= (if budgetWait then localDelay else retryDelay)
    ensures !budgetWait ==> delay >= RATE_LIMIT_COOLDOWN
    ensures delay in (if budgetWait then {GAP, localDelay} else {RATE_LIMIT_COOLDOWN, retryDelay})
  {
    if budgetWait then (if localDelay > GAP then localDelay else GAP)
    else if retryDelay > RATE_LIMIT_COOLDOWN then retryDelay else RATE_LIMIT_COOLDOWN
  }

  // ---------------------------------------------------------------- interleaved workers

  /** Deferred: started, and its rate-limit cooldown has replaced the plan. */
  datatype Phase = Claimed | Read(actual: int) | Started(actual: int) | Deferred(actual: int) | Aborted

  /** A successful claim; `plan` is the replacement it stored, whose first deadline is its token for later swaps. */
  datatype Ticket = Ticket(expected: int, claimAt: int, plan: seq<int>, phase: Phase)

  /** `plan` is the stored plan; the stored next run is its first deadline. Tickets are in the order of their swaps. */
  datatype StoreState = StoreState(plan: seq<int>, clock: int, tickets: seq<Ticket>)

  /** `lost`: the swap took effect but its answer did not arrive, so the worker gives up. */
  datatype Step =
    | Tick(to: int)
    | Due(snapshot: Snapshot, now: int, channels: Option<Availability>, draws: Draws, lost: bool)
    | ReadClock(ticket: nat)
    | Correct(ticket: nat, lost: bool)
    | CoolDown(ticket: nat, readAt: int, budgetWait: bool, localDelay: int, retryDelay: int, draws: Draws)

  /** A worker acts on a clock reading of its own, made some time before its swap reaches the store. */
  predicate Enabled(s: StoreState, step: Step) {
    match step
    case Tick(to) => to >= s.clock
    case Due(snapshot, now, channels, draws, lost) => now <= s.clock
    case ReadClock(i) => i < |s.tickets| && s.tickets[i].phase.Claimed?
    case Correct(i, lost) => i < |s.tickets| && s.tickets[i].phase.Read?
    case CoolDown(i, readAt, budgetWait, localDelay, retryDelay, draws) =>
      i < |s.tickets| && s.tickets[i].phase.Started? && s.tickets[i].phase.actual <= readAt <= s.clock
  }

  predicate Swaps(s: StoreState, expected: int, replacement: Option<seq<int>>) {
    replacement.Some? && s.plan != [] && s.plan[0] == expected
  }

  function Advance(s: StoreState, i: nat, plan: seq<int>, phase: Phase): StoreState
    requires i < |s.tickets|
  {
    s.(tickets := s.tickets[i := s.tickets[i].(plan := plan, phase := phase)])
  }

  function DueStep(
    s: StoreState, grace: nat, snapshot: Snapshot, now: int, channels: Option<Availability>, draws: Draws, lost: bool)
    : StoreState
  {
    var decision := Decide(snapshot, now, grace, channels);
    if decision.Ignore? then s
    else
      var r := Replacement(snapshot, now, decision, draws);
      if !Swaps(s, snapshot.next.value, r) then s
      else if decision.Claim? && !lost
      then StoreState(r.value, s.clock, s.tickets + [Ticket(snapshot.next.value, now, r.value, Claimed)])
      else s.(plan := r.value)
  }

  /**
   When a pass over a due schedule takes a ticket, and what it leaves stored otherwise. It claims if and only if the
   schedule is enabled with a valid account, its deadline has come and is not overdue, the last attempt is two
   minutes old, the channels are known and the slot's turn is to run, a plan was drawn, and the swap took effect and
   was answered.
   */
  lemma DueStepMeans(
      s: StoreState, grace: nat, snapshot: Snapshot, now: int, channels: Option<Availability>, draws: Draws, lost: bool)
    ensures
      var after := DueStep(s, grace, snapshot, now, channels, draws, lost);
      && after.clock == s.clock
      && (after.tickets != s.tickets <==>
            && snapshot.enabled && snapshot.accountId >= 1 && snapshot.next.Some?
            && snapshot.next.value <= now <= snapshot.next.value + grace
            && (snapshot.last.Some? ==> now >= snapshot.last.value + 120 * SECOND)
            && channels.Some?
            && TurnOf(Slot(snapshot.planned, snapshot.next.value), channels.value).Runs?
            && AfterClaim(snapshot.planned, snapshot.next.value, now, draws).Some?
            && s.plan != [] && s.plan[0] == snapshot.next.value && !lost)
      && (after.tickets != s.tickets ==>
            after.tickets == s.tickets + [Ticket(s.plan[0], now, after.plan, Claimed)])
    ensures
      var after := DueStep(s, grace, snapshot, now, channels, draws, lost);
      if !snapshot.enabled || snapshot.accountId < 1 || s.plan == [] || snapshot.next != Some(s.plan[0])
         || now < s.plan[0]
      then after == s
      else if now > s.plan[0] + grace then Stores(s.plan, NewPlan(draws, now), after.plan)
      else if snapshot.last.Some? && now < snapshot.last.value + 120 * SECOND
      then
        var earliest := snapshot.last.value + 120 * SECOND;
        Stores(s.plan, ShiftCurrent(snapshot.planned, s.plan[0], earliest, draws), after.plan)
      else if channels.None? then after == s
      else Stores(s.plan, AfterClaim(snapshot.planned, s.plan[0], now, draws), after.plan)
  {
    hide NewPlan, AfterClaim, ShiftCurrent, Slot, TurnOf;
  }

  /** The drawn plan replaces the stored one; without a drawn plan the stored one stays. */
  predicate Stores(plan: seq<int>, drawn: Option<seq<int>>, stored: seq<int>) {
    stored == if drawn.Some? then drawn.value else plan
  }

  /** Only a plan that starts too early for the actual start is swapped; a failed or unanswered swap aborts. */
  function CorrectStep(s: StoreState, i: nat, lost: bool): StoreState
    requires i < |s.tickets| && s.tickets[i].phase.Read?
  {
    var t := s.tickets[i];
    var corrected := NotBefore(t.plan, t.phase.actual + GAP);
    if corrected == t.plan then Advance(s, i, t.plan, Started(t.phase.actual))
    else if !Swaps(s, t.plan[0], Some(corrected)) then Advance(s, i, t.plan, Aborted)
    else
      var after := Advance(s, i, if lost then t.plan else corrected, if lost then Aborted else Started(t.phase.actual));
      after.(plan := corrected)
  }

  function CoolDownStep(s: StoreState, i: nat, first: int, draws: Draws): StoreState
    requires i < |s.tickets| && s.tickets[i].phase.Started?
  {
    var t := s.tickets[i];
    var r := StartingAt(draws, first);
    if t.plan == [] || !Swaps(s, t.plan[0], r) then s
    else Advance(s, i, t.plan, Deferred(t.phase.actual)).(plan := r.value)
  }

  ghost function Next(s: StoreState, grace: nat, step: Step): StoreState
    requires Enabled(s, step)
  {
    match step
    case Tick(to) => s.(clock := to)
    case Due(snapshot, now, channels, draws, lost) => DueStep(s, grace, snapshot, now, channels, draws, lost)
    case ReadClock(i) => Advance(s, i, s.tickets[i].plan, Read(s.clock))
    case Correct(i, lost) => CorrectStep(s, i, lost)
    case CoolDown(i, readAt, budgetWait, localDelay, retryDelay, draws) =>
      CoolDownStep(s, i, readAt + CooldownDelay(budgetWait, localDelay, retryDelay), draws)
  }

  // ---------------------------------------------------------------- the worker's code

  /** The stored schedule and the claims made from it. */
  class Store {
    var plan: seq<int>
    var clock: int
    var tickets: seq<Ticket>

    ghost function Now(): StoreState
      reads this
    {
      StoreState(plan, clock, tickets)
    }

    method CompareAndSwap(expected: int, planned: seq<int>) returns (changed: bool)
      modifies this`plan
      ensures changed == Swaps(old(Now()), expected, Some(planned))
      ensures plan == if changed then planned else old(plan)
    {
      changed := plan != [] && plan[0] == expected;
      if changed { plan := planned; }
    }

    /** A worker's pass up to its swap; `lost` is a swap whose answer does not arrive. */
    method ProcessDue(
        snapshot: Snapshot, now: int, grace: nat, channels: Option<Availability>, draws: Draws, lost: bool)
      returns (claimed: bool)
      modifies this
      ensures Now() == DueStep(old(Now()), grace, snapshot, now, channels, draws, lost)
      ensures claimed <==>
                && snapshot.enabled && snapshot.accountId >= 1 && snapshot.next.Some?
                && snapshot.next.value <= now <= snapshot.next.value + grace
                && (snapshot.last.Some? ==> now >= snapshot.last.value + 120 * SECOND)
                && channels.Some?
                && TurnOf(Slot(snapshot.planned, snapshot.next.value), channels.value).Runs?
                && AfterClaim(snapshot.planned, snapshot.next.value, now, draws).Some?
                && old(plan) != [] && old(plan)[0] == snapshot.next.value && !lost
      ensures tickets == old(tickets) + (if claimed then [Ticket(old(plan)[0], now, plan, Claimed)] else [])
    {
      hide Future, NewPlan, AfterClaim, ShiftCurrent, WebOnlyCreationSlot, ScheduledChannel;
      claimed := false;
      if !snapshot.enabled || snapshot.accountId < 1 || snapshot.next.None? { return; }
      var expected := snapshot.next.value;
      if now < expected { return; }
      if now - expected > grace {
        var planned := GeneratePlan(now, draws);
        if planned.Some? { var _ := CompareAndSwap(expected, planned.value); }
        return;
      }
      if snapshot.last.Some? {
        var earliest := snapshot.last.value + GAP;
        if now < earliest {
          var planned := ShiftCurrentPlan(snapshot.planned, expected, earliest, draws);
          if planned.Some? { var _ := CompareAndSwap(expected, planned.value); }
          return;
        }
      }
      if channels.None? { return; }
      var current := FuturePlan(snapshot.planned, expected, true);
      var slot := SLOTS - |current|;
      var planned := PlanAfterClaim(snapshot.planned, expected, now, draws);
      if planned.None? { return; }
      var skipped := !channels.value.icloudWeb || (!channels.value.appleAccount && !WebOnlyCreationSlot(slot));
      var changed := CompareAndSwap(expected, planned.value);
      if lost || !changed || skipped { return; }
      tickets := tickets + [Ticket(expected, now, planned.value, Claimed)];
      claimed := true;
    }

    method CorrectPlanAfterClaim(i: nat, lost: bool) returns (started: bool)
      requires i < |tickets| && tickets[i].phase.Read?
      modifies this
      ensures Now() == CorrectStep(old(Now()), i, lost)
      ensures var t := old(tickets)[i];
              var early := t.plan != [] && t.plan[0] < t.phase.actual + 120 * SECOND;
              var holds := t.plan != [] && old(plan) != [] && old(plan)[0] == t.plan[0];
              && (started <==> !early || (holds && !lost))
              && (if early && holds then MovedTo(t.plan, plan, t.phase.actual + 120 * SECOND) else plan == old(plan))
              && |tickets| == |old(tickets)|
              && tickets[i].phase == (if started then Started(t.phase.actual) else Aborted)
              && tickets[i].plan == (if started && early then plan else t.plan)
    {
      var t := tickets[i];
      var actual := t.phase.actual;
      if |t.plan| == 0 || t.plan[0] >= actual + GAP {
        tickets := tickets[i := t.(phase := Started(actual))];
        return true;
      }
      var shifted := MoveTo(t.plan, actual + GAP);
      assert shifted[0] != t.plan[0];
      var changed := CompareAndSwap(t.plan[0], shifted);
      if lost || !changed {
        tickets := tickets[i := t.(phase := Aborted)];
        return false;
      }
      tickets := tickets[i := t.(plan := shifted, phase := Started(actual))];
      started := true;
    }

    method CoolDown(i: nat, first: int, draws: Draws)
      requires i < |tickets| && tickets[i].phase.Started?
      modifies this
      ensures Now() == CoolDownStep(old(Now()), i, first, draws)
      ensures var t := old(tickets)[i];
              var cooled := t.plan != [] && old(plan) != [] && old(plan)[0] == t.plan[0] && InRange(draws, SPARE);
              && |tickets| == |old(tickets)|
              && tickets[i].phase == (if cooled then Deferred(t.phase.actual) else t.phase)
              && if cooled then |plan| == 23 && plan[0] == first && plan[22] == first + 3600 * SECOND
                 else plan == old(plan)
    {
      hide InRange, FreshPlan;
      var t := tickets[i];
      if |t.plan| == 0 { return; }
      if InRange(draws, SPARE) { StartingAtIsGood(draws, first); }
      var planned := NewPlanStartingAt(first, draws);
      if planned.None? { return; }
      var changed := CompareAndSwap(t.plan[0], planned.value);
      if changed { tickets := tickets[i := t.(phase := Deferred(t.phase.actual))]; }
    }
  }

  // ---------------------------------------------------------------- invariant

  predicate HasActual(phase: Phase) { phase.Read? || phase.Started? || phase.Deferred? }

  predicate TicketOk(t: Ticket, clock: int) {
    && Good(t.plan)
    && t.expected <= t.claimAt <= clock && t.plan[0] >= t.claimAt + GAP
    && (HasActual(t.phase) ==> t.claimAt <= t.phase.actual <= clock)
    && (t.phase.Started? ==> t.plan[0] >= t.phase.actual + GAP)
  }

  /** No deadline before this moment can be claimed after the ticket. */
  function Horizon(t: Ticket): int
    requires t.plan != []
  {
    if t.phase.Deferred? then t.phase.actual + GAP else t.plan[0]
  }

  predicate Inv(s: StoreState) {
    && Good(s.plan)
    && (forall i :: 0 <= i < |s.tickets| ==> TicketOk(s.tickets[i], s.clock) && s.plan[0] >= Horizon(s.tickets[i]))
    && (forall i, j :: 0 <= i < j < |s.tickets| ==> s.tickets[j].expected >= Horizon(s.tickets[i]))
  }

  lemma DueKeepsInv(
      s: StoreState, grace: nat, snapshot: Snapshot, now: int, channels: Option<Availability>, draws: Draws, lost: bool)
    requires Inv(s) && now <= s.clock
    ensures Inv(DueStep(s, grace, snapshot, now, channels, draws, lost))
  {
    if !Decide(snapshot, now, grace, channels).Ignore? {
      ReplacementIsLater(snapshot, now, grace, channels, draws);
    }
    hide Good, Decide, Replacement;
  }

  /** A ticket whose token is still the stored next run is the latest one. */
  lemma HolderIsLatest(s: StoreState, i: nat)
    requires Inv(s) && i < |s.tickets| && !s.tickets[i].phase.Deferred? && s.plan[0] == s.tickets[i].plan[0]
    ensures i == |s.tickets| - 1
  {
    var last := s.tickets[|s.tickets| - 1];
    assert TicketOk(last, s.clock) && s.plan[0] >= Horizon(last) > last.expected;
  }

  lemma AdvanceKeepsInv(s: StoreState, i: nat, plan: seq<int>, phase: Phase)
    requires Inv(s) && i < |s.tickets|
    requires TicketOk(s.tickets[i].(plan := plan, phase := phase), s.clock)
    requires Horizon(s.tickets[i].(plan := plan, phase := phase)) <= Horizon(s.tickets[i])
    ensures Inv(Advance(s, i, plan, phase))
  {
    hide Good;
  }

  /**
   The latest ticket may change while its swap replaces the stored plan by one that starts no earlier than
   its horizon.
   */
  lemma LatestKeepsInv(s: StoreState, plan: seq<int>, phase: Phase, stored: seq<int>)
    requires Inv(s) && s.tickets != [] && Good(stored)
    requires TicketOk(s.tickets[|s.tickets| - 1].(plan := plan, phase := phase), s.clock)
    requires stored[0] >= Horizon(s.tickets[|s.tickets| - 1].(plan := plan, phase := phase))
    requires stored[0] > s.tickets[|s.tickets| - 1].expected
    ensures Inv(Advance(s, |s.tickets| - 1, plan, phase).(plan := stored))
  {
    hide Good;
  }

  lemma CorrectKeepsInv(s: StoreState, i: nat, lost: bool)
    requires Inv(s) && i < |s.tickets| && s.tickets[i].phase.Read?
    ensures Inv(CorrectStep(s, i, lost))
  {
    var t := s.tickets[i];
    var corrected := NotBefore(t.plan, t.phase.actual + GAP);
    assert Good(corrected);
    if corrected == t.plan {
      AdvanceKeepsInv(s, i, t.plan, Started(t.phase.actual));
    } else if s.plan[0] != t.plan[0] {
      AdvanceKeepsInv(s, i, t.plan, Aborted);
    } else {
      HolderIsLatest(s, i);
      LatestKeepsInv(s, if lost then t.plan else corrected, if lost then Aborted else Started(t.phase.actual),
                     corrected);
    }
    hide Good, NotBefore, TicketOk;
  }

  lemma CoolDownKeepsInv(s: StoreState, i: nat, first: int, draws: Draws)
    requires Inv(s) && i < |s.tickets| && s.tickets[i].phase.Started?
    requires first >= s.tickets[i].phase.actual + GAP
    ensures Inv(CoolDownStep(s, i, first, draws))
  {
    if s.plan[0] == s.tickets[i].plan[0] && StartingAt(draws, first).Some? {
      HolderIsLatest(s, i);
      StartingAtIsGood(draws, first);
      LatestKeepsInv(s, s.tickets[i].plan, Deferred(s.tickets[i].phase.actual), StartingAt(draws, first).value);
    }
    hide Good, StartingAt, TicketOk;
  }

  lemma StepKeepsInv(s: StoreState, grace: nat, step: Step)
    requires Inv(s) && Enabled(s, step)
    ensures Inv(Next(s, grace, step))
  {
    match step
    case Tick(to) => hide Good;
    case Due(snapshot, now, channels, draws, lost) => DueKeepsInv(s, grace, snapshot, now, channels, draws, lost);
    case ReadClock(i) => AdvanceKeepsInv(s, i, s.tickets[i].plan, Read(s.clock));
    case Correct(i, lost) => CorrectKeepsInv(s, i, lost);
    case CoolDown(i, readAt, budgetWait, localDelay, retryDelay, draws) =>
      CoolDownKeepsInv(s, i, readAt + CooldownDelay(budgetWait, localDelay, retryDelay), draws);
  }

  /** The states of a run that begins when a good plan was stored and nothing was claimed from it. */
  ghost predicate Run(grace: nat, states: seq<StoreState>, steps: seq<Step>) {
    && |states| == |steps| + 1 && Good(states[0].plan) && states[0].tickets == []
    && forall i :: 0 <= i < |steps| ==>
         Enabled(states[i], steps[i]) && states[i + 1] == Next(states[i], grace, steps[i])
  }

  lemma {:induction false} RunKeepsInv(grace: nat, states: seq<StoreState>, steps: seq<Step>, n: nat)
    requires Run(grace, states, steps) && n <= |steps|
    ensures Inv(states[n])
  {
    if n > 0 {
      RunKeepsInv(grace, states, steps, n - 1);
      StepKeepsInv(states[n - 1], grace, steps[n - 1]);
      hide Inv, Next;
    }
  }

  predicate Began(t: Ticket) { t.phase.Started? || t.phase.Deferred? }

  /** The stored plan always has 1 to 23 deadlines, any two of them at least two minutes apart. */
  lemma StoredPlanIsGood(grace: nat, states: seq<StoreState>, steps: seq<Step>, n: nat)
    requires Run(grace, states, steps) && n <= |steps|
    ensures 1 <= |states[n].plan| <= 23
    ensures forall i, j :: 0 <= i < j < |states[n].plan| ==> states[n].plan[j] - states[n].plan[i] >= 120 * SECOND
  {
    RunKeepsInv(grace, states, steps, n);
  }

  /** Whatever the latency between claim and start, two remote starts are never closer than two minutes. */
  lemma StartsAreSpread(grace: nat, states: seq<StoreState>, steps: seq<Step>, n: nat, i: nat, j: nat)
    requires Run(grace, states, steps) && n <= |steps| && i < j < |states[n].tickets|
    requires Began(states[n].tickets[i]) && Began(states[n].tickets[j])
    ensures states[n].tickets[j].phase.actual - states[n].tickets[i].phase.actual >= 120 * SECOND
  {
    RunKeepsInv(grace, states, steps, n);
    var s := states[n];
    assert TicketOk(s.tickets[i], s.clock) && TicketOk(s.tickets[j], s.clock);
    assert s.tickets[j].expected >= Horizon(s.tickets[i]);
  }

  /** The stored next run is at least two minutes after every start. */
  lemma NextRunFollowsStarts(grace: nat, states: seq<StoreState>, steps: seq<Step>, n: nat, i: nat)
    requires Run(grace, states, steps) && n <= |steps| && i < |states[n].tickets| && Began(states[n].tickets[i])
    ensures states[n].plan != [] && states[n].plan[0] >= states[n].tickets[i].phase.actual + 120 * SECOND
  {
    RunKeepsInv(grace, states, steps, n);
    assert TicketOk(states[n].tickets[i], states[n].clock);
  }

  /** Competing workers never claim the same deadline, and claim them in order. */
  lemma DeadlinesAreClaimedOnce(grace: nat, states: seq<StoreState>, steps: seq<Step>, n: nat, i: nat, j: nat)
    requires Run(grace, states, steps) && n <= |steps| && i < j < |states[n].tickets|
    ensures states[n].tickets[i].expected + 120 * SECOND <= states[n].tickets[j].expected
  {
    RunKeepsInv(grace, states, steps, n);
    var s := states[n];
    assert TicketOk(s.tickets[i], s.clock) && s.tickets[j].expected >= Horizon(s.tickets[i]);
  }

  // ---------------------------------------------------------------- the deadlines of a run

  /** A claim whose swap token is still the stored next run has its own plan stored, and no other. */
  predicate Held(s: StoreState) {
    forall i :: 0 <= i < |s.tickets| && !s.tickets[i].phase.Deferred? && s.plan != [] && s.tickets[i].plan != [] ==>
                  s.tickets[i].plan[0] == s.plan[0] ==> s.tickets[i].plan == s.plan
  }

  lemma AtMostTheLatest(s: StoreState)
    requires Inv(s)
    requires s.tickets != [] ==>
               var t := s.tickets[|s.tickets| - 1];
               t.phase.Deferred? || t.plan == s.plan || t.plan[0] != s.plan[0]
    ensures Held(s)
  {
    forall i | 0 <= i < |s.tickets| && !s.tickets[i].phase.Deferred? && s.tickets[i].plan[0] == s.plan[0]
      ensures s.tickets[i].plan == s.plan
    {
      HolderIsLatest(s, i);
    }
  }

  lemma StepKeepsHeld(s: StoreState, grace: nat, step: Step)
    requires Inv(s) && Held(s) && Enabled(s, step)
    ensures Held(Next(s, grace, step))
  {
    StepKeepsInv(s, grace, step);
    match step
    case Due(snapshot, now, channels, draws, lost) =>
      if !Decide(snapshot, now, grace, channels).Ignore? {
        ReplacementIsLater(snapshot, now, grace, channels, draws);
      }
      hide Decide, Replacement, Good;
      AtMostTheLatest(Next(s, grace, step));
    case Correct(i, lost) => CorrectKeepsHeld(s, i, lost);
    case CoolDown(i, readAt, budgetWait, localDelay, retryDelay, draws) =>
      hide StartingAt, CooldownDelay, Good;
      AtMostTheLatest(Next(s, grace, step));
    case _ =>
  }

  lemma CorrectKeepsHeld(s: StoreState, i: nat, lost: bool)
    requires Inv(s) && Held(s) && i < |s.tickets| && s.tickets[i].phase.Read? && Inv(CorrectStep(s, i, lost))
    ensures Held(CorrectStep(s, i, lost))
  {
    if s.plan[0] == s.tickets[i].plan[0] { HolderIsLatest(s, i); }
    hide NotBefore, Good, TicketOk;
    AtMostTheLatest(CorrectStep(s, i, lost));
  }

  lemma {:induction false} RunKeepsHeld(grace: nat, states: seq<StoreState>, steps: seq<Step>, n: nat)
    requires Run(grace, states, steps) && n <= |steps|
    ensures Held(states[n])
  {
    if n > 0 {
      RunKeepsHeld(grace, states, steps, n - 1);
      RunKeepsInv(grace, states, steps, n - 1);
      StepKeepsHeld(states[n - 1], grace, steps[n - 1]);
      hide Inv, Next, Held;
    }
  }

  /**
   Nothing but a cooldown is excluded, and a pass whose snapshot is the stored schedule: that comes before the grace is
   over, under the given channels, with random numbers in range and with its swap answered. A pass with an
   outdated snapshot may do as it likes; it loses its swap.
   */
  predicate Orderly(s: StoreState, grace: nat, step: Step, channels: Availability) {
    match step
    case Due(snapshot, now, read, draws, lost) =>
      s.plan != [] && snapshot.next == Some(s.plan[0]) ==>
        && snapshot.enabled && snapshot.accountId >= 1 && snapshot.planned == s.plan
        && s.plan[0] <= now <= s.plan[0] + grace
        && read == Some(channels) && InRange(draws, SPARE) && !lost
    case CoolDown(_, _, _, _, _, _) => false
    case _ => true
  }

  /** The step passes the deadline that is due: two minutes after the last attempt, or with none before. */
  predicate Passes(s: StoreState, step: Step) {
    && step.Due? && s.plan != [] && step.snapshot.next == Some(s.plan[0])
    && (step.snapshot.last.Some? ==> step.now >= step.snapshot.last.value + 120 * SECOND)
  }

  function Passed(states: seq<StoreState>, steps: seq<Step>, a: nat, b: nat): nat
    requires a <= b <= |steps| <= |states|
  {
    if a == b then 0 else Passed(states, steps, a, b - 1) + (if Passes(states[b - 1], steps[b - 1]) then 1 else 0)
  }

  /** Passing a deadline goes on to the next slot, and claims it if and only if the slot's turn is to run. */
  lemma PassGoesOn(s: StoreState, grace: nat, step: Step, channels: Availability)
    requires Inv(s) && Enabled(s, step) && Orderly(s, grace, step, channels) && Passes(s, step)
    ensures var after := Next(s, grace, step);
            && |after.plan| == (if |s.plan| == 1 then 23 else |s.plan| - 1)
            && |after.tickets| == |s.tickets| + (if TurnOf(SLOTS - |s.plan|, channels).Skipped? then 0 else 1)
  {
    DueStepMeans(s, grace, step.snapshot, step.now, step.channels, step.draws, step.lost);
    ClaimConsumes(s.plan, step.now, step.draws);
    ClaimLeavesGoodPlan(s.plan, s.plan[0], step.now, step.draws);
    SlotOfGood(s.plan);
    hide Spaced, TurnOf, AfterClaim, FreshPlan, InRange, Slot, DueStep, TicketOk;
  }

  /** No other step of an orderly run changes the slot that comes next, and none claims. */
  lemma OthersWait(s: StoreState, grace: nat, step: Step, channels: Availability)
    requires Inv(s) && Held(s) && Enabled(s, step) && Orderly(s, grace, step, channels) && !Passes(s, step)
    ensures var after := Next(s, grace, step);
            |after.plan| == |s.plan| && |after.tickets| == |s.tickets|
  {
    if step.Due? {
      DueStepMeans(s, grace, step.snapshot, step.now, step.channels, step.draws, step.lost);
      if step.snapshot.next == Some(s.plan[0]) {
        FutureOfSpaced(s.plan);
      }
    }
    hide Spaced, TurnOf, AfterClaim, FreshPlan, InRange, Slot, DueStep, TicketOk, Future;
  }

  /** The slots passed since the first one, and what became of them: the plan's length and the claims tell. */
  predicate Counted(slots: seq<int>, first: nat, claims: nat, s: StoreState, channels: Availability) {
    && RoundRobin(slots, first) && |s.plan| == SLOTS - RoundOf(first + |slots|)
    && |s.tickets| == claims + |slots| - Turns(slots, channels, Skipped)
  }

  lemma CountedStep(
      slots: seq<int>, first: nat, claims: nat, s: StoreState, grace: nat, step: Step, channels: Availability)
    returns (longer: seq<int>)
    requires Counted(slots, first, claims, s, channels) && first < SLOTS
    requires Inv(s) && Held(s) && Enabled(s, step) && Orderly(s, grace, step, channels)
    ensures Counted(longer, first, claims, Next(s, grace, step), channels)
    ensures |longer| == |slots| + (if Passes(s, step) then 1 else 0)
  {
    longer := slots;
    if Passes(s, step) {
      longer := slots + [SLOTS - |s.plan|];
      PassGoesOn(s, grace, step, channels);
      NextSlot(slots, first, channels);
    } else {
      OthersWait(s, grace, step, channels);
    }
    hide Inv, Held, Enabled, Next, Orderly, Passes, TurnOf, Turns, RoundRobin, RoundOf;
  }

  /** The slots of the deadlines passed in a stretch of a run. */
  lemma {:induction false} PassesGoInOrder(
      grace: nat, states: seq<StoreState>, steps: seq<Step>, channels: Availability, a: nat, b: nat)
    returns (slots: seq<int>)
    requires Run(grace, states, steps) && a <= b <= |steps|
    requires forall n :: a <= n < b ==> Orderly(states[n], grace, steps[n], channels)
    ensures 1 <= |states[a].plan| <= 23 && |slots| == Passed(states, steps, a, b)
    ensures Counted(slots, SLOTS - |states[a].plan|, |states[a].tickets|, states[b], channels)
    decreases b
  {
    hide *;
    RunKeepsInv(grace, states, steps, a);
    RunHere(grace, states, steps, a);
    var first, claims := SLOTS - |states[a].plan|, |states[a].tickets|;
    if a == b {
      slots := NoSlots(first, claims, states[a], channels);
    } else {
      slots := PassesGoInOrder(grace, states, steps, channels, a, b - 1);
      RunKeepsInv(grace, states, steps, b - 1);
      RunKeepsHeld(grace, states, steps, b - 1);
      RunHere(grace, states, steps, b - 1);
      slots := CountedStep(slots, first, claims, states[b - 1], grace, steps[b - 1], channels);
    }
    PassedHere(states, steps, a, b);
  }

  lemma PassedHere(states: seq<StoreState>, steps: seq<Step>, a: nat, b: nat)
    requires a <= b <= |steps| <= |states|
    ensures Passed(states, steps, a, b)
            == if a == b then 0
               else Passed(states, steps, a, b - 1) + (if Passes(states[b - 1], steps[b - 1]) then 1 else 0)
  {
  }

  lemma RunHere(grace: nat, states: seq<StoreState>, steps: seq<Step>, n: nat)
    requires Run(grace, states, steps) && n <= |steps|
    ensures |states| == |steps| + 1
    ensures Inv(states[n]) ==> 1 <= |states[n].plan| <= SLOTS == 23
    ensures n < |steps| ==> Enabled(states[n], steps[n]) && states[n + 1] == Next(states[n], grace, steps[n])
  {
  }

  lemma NoSlots(first: nat, claims: nat, s: StoreState, channels: Availability) returns (slots: seq<int>)
    requires first < SLOTS && |s.plan| == SLOTS - first && |s.tickets| == claims
    ensures slots == [] && Counted(slots, first, claims, s, channels)
  {
    slots := [];
  }

  lemma NextSlot(slots: seq<int>, first: nat, channels: Availability)
    requires first < SLOTS && RoundRobin(slots, first)
    ensures var slot := RoundOf(first + |slots|);
            && 0 <= slot < SLOTS && RoundRobin(slots + [slot], first)
            && RoundOf(first + |slots| + 1) == (if slot == SLOTS - 1 then 0 else slot + 1)
            && Turns(slots + [slot], channels, Skipped)
               == Turns(slots, channels, Skipped) + (if TurnOf(slot, channels).Skipped? then 1 else 0)
  {
    var slot := RoundOf(first + |slots|);
    assert (slots + [slot])[..|slots|] == slots;
    hide TurnOf;
  }

  /**
   Of any 23 deadlines passed in a row, all are claimed while both channels are up, exactly five when the account
   channel is down, and none without the Web. Corrections, postponements and passes that lost their swap may
   come in between.
   */
  lemma TwentyThreePasses(
      grace: nat, states: seq<StoreState>, steps: seq<Step>, channels: Availability, a: nat, b: nat)
    requires Run(grace, states, steps) && a <= b <= |steps|
    requires forall n :: a <= n < b ==> Orderly(states[n], grace, steps[n], channels)
    requires Passed(states, steps, a, b) == 23
    ensures |states[b].tickets| - |states[a].tickets|
            == if !channels.icloudWeb then 0 else if channels.appleAccount then 23 else 5
  {
    var slots := PassesGoInOrder(grace, states, steps, channels, a, b);
    var first := SLOTS - |states[a].plan|;
    assert RoundRobin(slots, first);
    assert |states[b].tickets| == |states[a].tickets| + |slots| - Turns(slots, channels, Skipped);
    hide *;
    FairWindow(slots, first, WEB_ONLY_LIMIT);
    WholeRound(|slots|, WEB_ONLY_LIMIT, PickedIn(slots, WEB_ONLY_LIMIT));
    InRound(slots, first);
    TurnsArePicked(slots);
    assert channels in {Availability(true, true), Availability(false, true), Availability(true, false),
                        Availability(false, false)};
  }

  lemma InRound(slots: seq<int>, first: int)
    requires RoundRobin(slots, first)
    ensures forall k :: 0 <= k < |slots| ==> 0 <= slots[k] < SLOTS
  {
  }
}
