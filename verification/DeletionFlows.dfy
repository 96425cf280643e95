/**
 The account flows of concurrent deletions: operation lock, execution slot and account lock,
 the cooldown that gives the last two back, and every way out.
 */
module DeletionFlows {
  import opened FiniteSets
  import opened Wrappers

  const SLOTS: nat := 2

  datatype Stage =
    | WaitOperation | WaitSlot | WaitAccount | Working
    | Yielding              // the cooldown has released the account lock
    | Sleeping              // and the slot
    | WaitSlotAgain | WaitAccountAgain
    | Draining              // the cooldown failed: remaining items are answered without requests
    | UnwindAccount | UnwindSlot | UnwindOperation | Exited

  /** How often a lock was taken and released by one flow. */
  datatype Tally = Tally(taken: nat, released: nat)

  /** `pool` is the slot pool of the flow's batch, absent for a single deletion. */
  datatype Flow = Flow(
    account: int, pool: Option<int>, stage: Stage, slotHeld: bool, accountHeld: bool,
    operations: Tally, slots: Tally, accounts: Tally)

  datatype State = State(
    flows: map<int, Flow>, operationOf: map<int, int>, accountOf: map<int, int>, used: map<int, int>)

  datatype Kind =
    | Start(account: int, pool: Option<int>)
    | TakeOperation | AbandonOperation
    | TakeSlot | AbandonSlot
    | TakeAccount | AbandonAccount
    | BeginCooldown | YieldSlot | Wake | WakeFailed
    | Finish                // the operation returned or panicked
    | ReleaseAccount | ReleaseSlot | ReleaseOperation

  datatype Action = Action(f: int, kind: Kind)

  function Took(t: Tally): Tally { t.(taken := t.taken + 1) }

  function Gave(t: Tally): Tally { t.(released := t.released + 1) }

  function Initial(): State { State(map[], map[], map[], map[]) }

  function Used(used: map<int, int>, pool: int): int {
    if pool in used then used[pool] else 0
  }

  predicate SlotFree(s: State, pool: Option<int>) {
    pool.Some? ==> Used(s.used, pool.value) < SLOTS
  }

  predicate Enabled(s: State, action: Action) {
    if action.kind.Start? then action.f !in s.flows
    else
      action.f in s.flows &&
      var flow, stage := s.flows[action.f], s.flows[action.f].stage;
      match action.kind
      case Start(_, _) => false
      case TakeOperation => stage.WaitOperation? && flow.account !in s.operationOf
      case AbandonOperation => stage.WaitOperation?
      case TakeSlot => (stage.WaitSlot? || stage.WaitSlotAgain?) && SlotFree(s, flow.pool)
      case AbandonSlot => stage.WaitSlot? || stage.WaitSlotAgain?
      case TakeAccount => (stage.WaitAccount? || stage.WaitAccountAgain?) && flow.account !in s.accountOf
      case AbandonAccount => stage.WaitAccount? || stage.WaitAccountAgain?
      case BeginCooldown => stage.Working?
      case YieldSlot => stage.Yielding?
      case Wake => stage.Sleeping?
      case WakeFailed => stage.Sleeping?
      case Finish => stage.Working? || stage.Sleeping? || stage.Draining?
      case ReleaseAccount => stage.UnwindAccount?
      case ReleaseSlot => stage.UnwindSlot?
      case ReleaseOperation => stage.UnwindOperation?
  }

  /** slot.release and releaseAccount give back only what this flow holds. */
  function WithoutSlot(flow: Flow): Flow {
    if flow.slotHeld then flow.(slotHeld := false, slots := Gave(flow.slots)) else flow
  }

  function WithoutAccount(flow: Flow): Flow {
    if flow.accountHeld then flow.(accountHeld := false, accounts := Gave(flow.accounts)) else flow
  }

  /** slot.acquire; a flow without a pool takes nothing. */
  function WithSlot(flow: Flow): Flow {
    if flow.pool.Some? then flow.(slotHeld := true, slots := Took(flow.slots)) else flow
  }

  function NewFlow(account: int, pool: Option<int>): Flow {
    Flow(account, pool, WaitOperation, false, false, Tally(0, 0), Tally(0, 0), Tally(0, 0))
  }

  function Next(flow: Flow, kind: Kind): Flow {
    match kind
    case Start(_, _) => flow
    case TakeOperation => flow.(stage := WaitSlot, operations := Took(flow.operations))
    case AbandonOperation => flow.(stage := Exited)
    case TakeSlot => WithSlot(flow).(stage := if flow.stage.WaitSlot? then WaitAccount else WaitAccountAgain)
    case AbandonSlot => flow.(stage := if flow.stage.WaitSlot? then UnwindOperation else Draining)
    case TakeAccount => flow.(stage := Working, accountHeld := true, accounts := Took(flow.accounts))
    case AbandonAccount => flow.(stage := if flow.stage.WaitAccount? then UnwindSlot else Draining)
    case BeginCooldown => flow.(stage := Yielding, accountHeld := false, accounts := Gave(flow.accounts))
    case YieldSlot => WithoutSlot(flow).(stage := Sleeping)
    case Wake => flow.(stage := WaitSlotAgain)
    case WakeFailed => flow.(stage := Draining)
    case Finish => flow.(stage := UnwindAccount)
    case ReleaseAccount => WithoutAccount(flow).(stage := UnwindSlot)
    case ReleaseSlot => WithoutSlot(flow).(stage := UnwindOperation)
    case ReleaseOperation => flow.(stage := Exited, operations := Gave(flow.operations))
  }

  /** What the locks themselves see of a step: who took and who gave back. */
  function Owners(owners: map<int, int>, f: int, account: int, before: bool, after: bool): map<int, int> {
    if before == after then owners
    else if after then owners[account := f]
    else owners - {account}
  }

  function Places(used: map<int, int>, pool: Option<int>, before: bool, after: bool): map<int, int> {
    if before == after || pool.None? then used
    else used[pool.value := Used(used, pool.value) + if after then 1 else -1]
  }

  predicate HasOperation(flow: Flow) {
    !flow.stage.WaitOperation? && !flow.stage.Exited?
  }

  function Step(s: State, action: Action): State
    requires Enabled(s, action)
  {
    var f := action.f;
    if action.kind.Start? then
      s.(flows := s.flows[f := NewFlow(action.kind.account, action.kind.pool)])
    else
      var flow := s.flows[f];
      var next := Next(flow, action.kind);
      State(s.flows[f := next],
            Owners(s.operationOf, f, flow.account, HasOperation(flow), HasOperation(next)),
            Owners(s.accountOf, f, flow.account, flow.accountHeld, next.accountHeld),
            Places(s.used, flow.pool, flow.slotHeld, next.slotHeld))
  }

  ghost predicate Run(states: seq<State>, actions: seq<Action>) {
    && |states| == |actions| + 1 && states[0] == Initial()
    && forall i :: 0 <= i < |actions| ==> Enabled(states[i], actions[i]) && states[i + 1] == Step(states[i], actions[i])
  }

  // ---------------------------------------------------------------- invariant

  predicate Balanced(t: Tally, held: bool) {
    t.taken == t.released + if held then 1 else 0
  }

  /** What a flow holds at each stage, and the balance of everything it took. */
  predicate FlowOk(flow: Flow) {
    && Balanced(flow.operations, HasOperation(flow)) && flow.operations.taken <= 1
    && Balanced(flow.slots, flow.slotHeld)
    && Balanced(flow.accounts, flow.accountHeld)
    && (flow.stage.WaitOperation? ==> flow.operations.taken == 0)
    && (flow.slotHeld ==> flow.pool.Some?)
    && (flow.stage.Working? ==> flow.accountHeld)
    && (flow.accountHeld ==> flow.stage.Working? || flow.stage.UnwindAccount?)
    && match flow.stage {
         case WaitAccount => flow.slotHeld == flow.pool.Some?
         case Working => flow.slotHeld == flow.pool.Some?
         case Yielding => flow.slotHeld == flow.pool.Some?
         case WaitAccountAgain => flow.slotHeld == flow.pool.Some?
         case Draining => true
         case UnwindAccount => true
         case UnwindSlot => true
         case _ => !flow.slotHeld
       }
  }

  /** Whoever has the lock of an account is recorded as its owner, and nobody else is. */
  ghost predicate OwnedBy(flows: map<int, Flow>, owners: map<int, int>, has: Flow -> bool) {
    && (forall f :: f in flows && has(flows[f]) ==> flows[f].account in owners && owners[flows[f].account] == f)
    && (forall a :: a in owners ==>
          owners[a] in flows && has(flows[owners[a]]) && flows[owners[a]].account == a)
  }

  function HasAccount(flow: Flow): bool { flow.accountHeld }

  ghost function SlotHolders(s: State, pool: int): set<int> {
    HoldersOf(s.flows, pool)
  }

  ghost function HoldersOf(flows: map<int, Flow>, pool: int): set<int> {
    set f | f in flows && flows[f].slotHeld && flows[f].pool == Some(pool)
  }

  ghost predicate SlotsCounted(flows: map<int, Flow>, used: map<int, int>) {
    forall pool: int {:trigger Used(used, pool)} {:trigger HoldersOf(flows, pool)} ::
      Used(used, pool) == |HoldersOf(flows, pool)| <= SLOTS
  }

  ghost predicate Inv(s: State) {
    && (forall f :: f in s.flows ==> FlowOk(s.flows[f]))
    && OwnedBy(s.flows, s.operationOf, HasOperation)
    && OwnedBy(s.flows, s.accountOf, HasAccount)
    && SlotsCounted(s.flows, s.used)
  }

  lemma NextKeepsFlow(flow: Flow, kind: Kind, s: State, f: int)
    requires f in s.flows && s.flows[f] == flow && FlowOk(flow)
    requires Enabled(s, Action(f, kind)) && !kind.Start?
    ensures var next := Next(flow, kind);
            && FlowOk(next) && next.account == flow.account && next.pool == flow.pool
            && (HasOperation(next) && !HasOperation(flow) ==> flow.account !in s.operationOf)
            && (next.accountHeld && !flow.accountHeld ==> flow.account !in s.accountOf)
            && (next.slotHeld && !flow.slotHeld ==> SlotFree(s, flow.pool))
  {
  }

  lemma OwnersFollow(flows: map<int, Flow>, owners: map<int, int>, has: Flow -> bool, f: int, next: Flow)
    requires OwnedBy(flows, owners, has) && f in flows && next.account == flows[f].account
    requires has(next) && !has(flows[f]) ==> next.account !in owners
    ensures OwnedBy(flows[f := next], Owners(owners, f, next.account, has(flows[f]), has(next)), has)
  {
  }

  lemma NewcomerOwnsNothing(flows: map<int, Flow>, owners: map<int, int>, has: Flow -> bool, f: int, flow: Flow)
    requires OwnedBy(flows, owners, has) && f !in flows && !has(flow)
    ensures OwnedBy(flows[f := flow], owners, has)
  {
  }

  lemma PlacesFollow(flows: map<int, Flow>, used: map<int, int>, f: int, next: Flow)
    requires SlotsCounted(flows, used) && f in flows && next.pool == flows[f].pool
    requires flows[f].slotHeld || next.slotHeld ==> next.pool.Some?
    requires next.slotHeld && !flows[f].slotHeld ==> Used(used, next.pool.value) < SLOTS
    ensures SlotsCounted(flows[f := next], Places(used, next.pool, flows[f].slotHeld, next.slotHeld))
  {
    hide HoldersOf;
    var flows', used' := flows[f := next], Places(used, next.pool, flows[f].slotHeld, next.slotHeld);
    forall pool: int
      ensures Used(used', pool) == |HoldersOf(flows', pool)| <= SLOTS
    {
      HoldersFollow(flows, f, next, pool);
      assert Used(used, pool) == |HoldersOf(flows, pool)| <= SLOTS;
    }
  }

  lemma HoldersFollow(flows: map<int, Flow>, f: int, next: Flow, pool: int)
    requires f in flows && next.pool == flows[f].pool
    ensures |HoldersOf(flows[f := next], pool)| == |HoldersOf(flows, pool)| +
              if next.pool != Some(pool) || next.slotHeld == flows[f].slotHeld then 0
              else if next.slotHeld then 1 else -1
  {
    assert HoldersOf(flows[f := next], pool) ==
           if next.slotHeld && next.pool == Some(pool) then HoldersOf(flows, pool) + {f}
           else HoldersOf(flows, pool) - {f};
    OneMoreOrLess(HoldersOf(flows, pool), f);
  }

  lemma NewcomerTakesNoPlace(flows: map<int, Flow>, used: map<int, int>, f: int, flow: Flow)
    requires SlotsCounted(flows, used) && f !in flows && !flow.slotHeld
    ensures SlotsCounted(flows[f := flow], used)
  {
    hide HoldersOf;
    var flows' := flows[f := flow];
    forall pool: int
      ensures Used(used, pool) == |HoldersOf(flows', pool)| <= SLOTS
    {
      NewcomerHoldsNothing(flows, f, flow, pool);
      assert Used(used, pool) == |HoldersOf(flows, pool)| <= SLOTS;
    }
  }

  lemma NewcomerHoldsNothing(flows: map<int, Flow>, f: int, flow: Flow, pool: int)
    requires f !in flows && !flow.slotHeld
    ensures HoldersOf(flows[f := flow], pool) == HoldersOf(flows, pool)
  {
  }

  lemma StepKeepsInv(s: State, action: Action)
    requires Inv(s) && Enabled(s, action)
    ensures Inv(Step(s, action))
  {
    hide OwnedBy, SlotsCounted;
    var f := action.f;
    if action.kind.Start? {
      var flow := NewFlow(action.kind.account, action.kind.pool);
      NewcomerOwnsNothing(s.flows, s.operationOf, HasOperation, f, flow);
      NewcomerOwnsNothing(s.flows, s.accountOf, HasAccount, f, flow);
      NewcomerTakesNoPlace(s.flows, s.used, f, flow);
    } else {
      hide Next, FlowOk;
      var next := Next(s.flows[f], action.kind);
      NextKeepsFlow(s.flows[f], action.kind, s, f);
      HoldingNeedsPool(s.flows[f]);
      HoldingNeedsPool(next);
      OwnersFollow(s.flows, s.operationOf, HasOperation, f, next);
      OwnersFollow(s.flows, s.accountOf, HasAccount, f, next);
      PlacesFollow(s.flows, s.used, f, next);
    }
  }

  lemma HoldingNeedsPool(flow: Flow)
    requires FlowOk(flow)
    ensures flow.slotHeld ==> flow.pool.Some?
  {
  }

  lemma {:induction false} RunKeepsInv(states: seq<State>, actions: seq<Action>, i: nat)
    requires Run(states, actions) && i <= |actions|
    ensures Inv(states[i])
  {
    hide Inv, Enabled, Step;
    if i > 0 {
      RunKeepsInv(states, actions, i - 1);
      StepKeepsInv(states[i - 1], actions[i - 1]);
    } else {
      InitialInv();
    }
  }

  lemma InitialInv()
    ensures Inv(Initial())
  {
    forall pool: int
      ensures Used(map[], pool) == |HoldersOf(map[], pool)| <= SLOTS
    {
      assert HoldersOf(map[], pool) == {};
    }
  }

  // ---------------------------------------------------------------- what holds in every run

  /** At most two flows of a batch hold a slot, and at most one flow an account's operation or lock. */
  lemma LimitsHold(states: seq<State>, actions: seq<Action>, i: nat)
    requires Run(states, actions) && i <= |actions|
    ensures forall pool :: |SlotHolders(states[i], pool)| <= SLOTS
    ensures forall f, g :: (f in states[i].flows && g in states[i].flows && f != g &&
                            states[i].flows[f].account == states[i].flows[g].account) ==>
                && !(HasOperation(states[i].flows[f]) && HasOperation(states[i].flows[g]))
                && !(states[i].flows[f].accountHeld && states[i].flows[g].accountHeld)
  {
    RunKeepsInv(states, actions, i);
    assert forall pool :: SlotHolders(states[i], pool) == HoldersOf(states[i].flows, pool);
  }

  /** A cooling flow keeps its operation lock and nothing else; a working one has all three. */
  lemma CoolingFlowsYield(states: seq<State>, actions: seq<Action>, i: nat, f: int)
    requires Run(states, actions) && i <= |actions| && f in states[i].flows
    ensures var s := states[i]; var flow := s.flows[f];
            && (flow.stage.Sleeping? ==>
                  && flow.account in s.operationOf && s.operationOf[flow.account] == f
                  && !flow.accountHeld && (flow.account in s.accountOf ==> s.accountOf[flow.account] != f)
                  && (flow.pool.Some? ==> f !in SlotHolders(s, flow.pool.value)))
            && (flow.stage.Working? ==>
                  && flow.account in s.operationOf && s.operationOf[flow.account] == f
                  && flow.account in s.accountOf && s.accountOf[flow.account] == f
                  && (flow.pool.Some? ==> f in SlotHolders(s, flow.pool.value)))
  {
    RunKeepsInv(states, actions, i);
    assert FlowOk(states[i].flows[f]);
  }

  /** No flow releases what it does not hold, and a flow that has ended released everything it took. */
  lemma ReleasedExactlyOnce(states: seq<State>, actions: seq<Action>, i: nat, f: int)
    requires Run(states, actions) && i <= |actions| && f in states[i].flows
    ensures var flow := states[i].flows[f];
            && flow.operations.released <= flow.operations.taken <= flow.operations.released + 1
            && flow.slots.released <= flow.slots.taken <= flow.slots.released + 1
            && flow.accounts.released <= flow.accounts.taken <= flow.accounts.released + 1
            && (flow.stage.Exited? ==>
                  && flow.operations.taken == flow.operations.released <= 1
                  && flow.slots.taken == flow.slots.released
                  && flow.accounts.taken == flow.accounts.released)
    ensures states[i].flows[f].stage.Exited? ==>
              && (forall a :: a in states[i].operationOf ==> states[i].operationOf[a] != f)
              && (forall a :: a in states[i].accountOf ==> states[i].accountOf[a] != f)
              && (forall pool :: f !in SlotHolders(states[i], pool))
  {
    RunKeepsInv(states, actions, i);
    assert FlowOk(states[i].flows[f]);
  }

  // ---------------------------------------------------------------- the way of a flow

  /** Three takings lead a new flow to its work, with everything in hand. */
  lemma WayToWork(account: int, pool: Option<int>)
    ensures var flow := Next(Next(Next(NewFlow(account, pool), TakeOperation), TakeSlot), TakeAccount);
            && flow.stage.Working? && flow.account == account && flow.pool == pool
            && HasOperation(flow) && flow.accountHeld && flow.slotHeld == pool.Some?
  {
  }

  /** A cooldown gives back slot and account lock, keeps the operation lock, and leads back to the work with both. */
  lemma CooldownReturns(flow: Flow)
    requires FlowOk(flow) && flow.stage.Working?
    ensures var asleep := Next(Next(flow, BeginCooldown), YieldSlot);
            var back := Next(Next(Next(asleep, Wake), TakeSlot), TakeAccount);
            && asleep.stage.Sleeping? && HasOperation(asleep) && !asleep.accountHeld && !asleep.slotHeld
            && back == flow.(accounts := Tally(flow.accounts.taken + 1, flow.accounts.released + 1),
                             slots := if flow.slotHeld then Tally(flow.slots.taken + 1, flow.slots.released + 1)
                                      else flow.slots)
  {
  }

  /** From its work, from a cooldown or after a failed one, a flow that finishes gives back all that it holds. */
  lemma WayOut(flow: Flow)
    requires FlowOk(flow) && (flow.stage.Working? || flow.stage.Sleeping? || flow.stage.Draining?)
    ensures var gone := Next(Next(Next(Next(flow, Finish), ReleaseAccount), ReleaseSlot), ReleaseOperation);
            && gone.stage.Exited? && !gone.slotHeld && !gone.accountHeld && !HasOperation(gone)
            && gone.operations == Tally(1, 1) && gone.slots == Tally(flow.slots.taken, flow.slots.taken)
            && gone.accounts == Tally(flow.accounts.taken, flow.accounts.taken)
  {
  }

  /** Whether the flow has had its account lock, and whether its work has come to an end. */
  predicate InOrder(flow: Flow, finished: bool) {
    match flow.stage
    case WaitOperation => flow.accounts.taken == 0 && !finished
    case WaitSlot => flow.accounts.taken == 0 && !finished
    case WaitAccount => flow.accounts.taken == 0 && !finished
    case UnwindAccount => flow.accounts.taken > 0 && finished
    case UnwindSlot => flow.accounts.taken > 0 <==> finished
    case UnwindOperation => flow.accounts.taken > 0 <==> finished
    case Exited => flow.accounts.taken > 0 <==> finished
    case _ => flow.accounts.taken > 0 && !finished
  }

  lemma NextKeepsOrder(s: State, f: int, kind: Kind, finished: bool)
    requires f in s.flows && Enabled(s, Action(f, kind)) && FlowOk(s.flows[f]) && InOrder(s.flows[f], finished)
    ensures InOrder(Next(s.flows[f], kind), finished || kind.Finish?)
  {
  }

  ghost predicate Acted(actions: seq<Action>, n: nat, action: Action)
    requires n <= |actions|
  {
    exists j :: 0 <= j < n && actions[j] == action
  }

  lemma ActedOneMore(actions: seq<Action>, n: nat, action: Action)
    requires 0 < n <= |actions|
    ensures Acted(actions, n, action) <==> Acted(actions, n - 1, action) || actions[n - 1] == action
  {
  }

  lemma {:induction false} RunKeepsOrder(states: seq<State>, actions: seq<Action>, n: nat, f: int)
    requires Run(states, actions) && n <= |actions|
    ensures if f in states[n].flows then InOrder(states[n].flows[f], Acted(actions, n, Action(f, Finish)))
            else !Acted(actions, n, Action(f, Finish))
  {
    if n > 0 {
      var s, action := states[n - 1], actions[n - 1];
      RunKeepsOrder(states, actions, n - 1, f);
      RunKeepsInv(states, actions, n - 1);
      ActedOneMore(actions, n, Action(f, Finish));
      if f in s.flows && action.f == f {
        NextKeepsOrder(s, f, action.kind, Acted(actions, n - 1, Action(f, Finish)));
      }
      hide InOrder, Next, FlowOk, Acted;
    }
  }

  /**
   A flow that has worked leaves only through the end of its work, in which every remaining item is answered, also
   when a cooldown failed; one that never had its account lock answers nothing.
   */
  lemma WorkIsFinished(states: seq<State>, actions: seq<Action>, n: nat, f: int)
    requires Run(states, actions) && n <= |actions|
    requires f in states[n].flows && states[n].flows[f].stage.Exited?
    ensures states[n].flows[f].accounts.taken > 0 <==> exists j :: 0 <= j < n && actions[j] == Action(f, Finish)
  {
    RunKeepsOrder(states, actions, n, f);
  }

  // ---------------------------------------------------------------- no cyclic wait

  /** The place of the lock that a flow waits for in the order operation, slot, account; -1 if it waits for none. */
  function WaitRank(flow: Flow): int {
    match flow.stage
    case WaitOperation => 0
    case WaitSlot => 1
    case WaitSlotAgain => 1
    case WaitAccount => 2
    case WaitAccountAgain => 2
    case _ => -1
  }

  /** Flow `f` cannot go on because `g` holds what it waits for. */
  ghost predicate WaitsFor(s: State, f: int, g: int) {
    && f in s.flows && g in s.flows
    && var flow, other := s.flows[f], s.flows[g];
    match WaitRank(flow)
    case 0 => flow.account in s.operationOf && s.operationOf[flow.account] == g
    case 1 => flow.pool.Some? && !SlotFree(s, flow.pool) && g in SlotHolders(s, flow.pool.value)
    case 2 => flow.account in s.accountOf && s.accountOf[flow.account] == g
    case _ => false
  }

  lemma HoldersWaitForLaterLocks(s: State, f: int, g: int)
    requires Inv(s) && WaitsFor(s, f, g)
    ensures WaitRank(s.flows[g]) == -1 || WaitRank(s.flows[g]) > WaitRank(s.flows[f])
  {
    assert FlowOk(s.flows[g]);
  }

  ghost predicate Chain(s: State, fs: seq<int>) {
    forall i :: 0 < i < |fs| ==> WaitsFor(s, fs[i - 1], fs[i])
  }

  lemma {:induction false} ChainClimbs(s: State, fs: seq<int>, j: nat)
    requires Inv(s) && Chain(s, fs) && 0 < j < |fs|
    ensures fs[0] in s.flows && fs[j] in s.flows
    ensures WaitRank(s.flows[fs[0]]) >= 0
    ensures WaitRank(s.flows[fs[j]]) == -1 || WaitRank(s.flows[fs[j]]) > WaitRank(s.flows[fs[0]])
  {
    assert WaitsFor(s, fs[j - 1], fs[j]);
    HoldersWaitForLaterLocks(s, fs[j - 1], fs[j]);
    if j > 1 {
      ChainClimbs(s, fs, j - 1);
    }
  }

  /** No chain of waiting flows ever comes back to its start. */
  lemma NoCyclicWait(states: seq<State>, actions: seq<Action>, i: nat, fs: seq<int>)
    requires Run(states, actions) && i <= |actions|
    requires |fs| > 1 && Chain(states[i], fs)
    ensures fs[0] != fs[|fs| - 1]
  {
    RunKeepsInv(states, actions, i);
    ChainClimbs(states[i], fs, |fs| - 1);
  }

  /** A step that does not give anything up. */
  predicate Forward(kind: Kind) {
    !kind.Start? && !kind.AbandonOperation? && !kind.AbandonSlot? && !kind.AbandonAccount? && !kind.WakeFailed?
  }

  /** Deadlock freedom: while some flow has not ended, some flow can go forward. */
  lemma SomeFlowCanProceed(states: seq<State>, actions: seq<Action>, i: nat, f: int)
    requires Run(states, actions) && i <= |actions|
    requires f in states[i].flows && !states[i].flows[f].stage.Exited?
    ensures exists action :: Enabled(states[i], action) && Forward(action.kind)
  {
    RunKeepsInv(states, actions, i);
    Proceed(states[i], f);
  }

  lemma {:induction false} Proceed(s: State, f: int)
    requires Inv(s) && f in s.flows && !s.flows[f].stage.Exited?
    ensures exists action :: Enabled(s, action) && Forward(action.kind)
    decreases if WaitRank(s.flows[f]) == -1 then 0 else 3 - WaitRank(s.flows[f])
  {
    var flow := s.flows[f];
    var action := Action(f, Onward(flow.stage));
    if Enabled(s, action) {
      assert Forward(action.kind);
    } else {
      var g := Blocker(s, f);
      HoldersWaitForLaterLocks(s, f, g);
      Proceed(s, g);
    }
  }

  function Onward(stage: Stage): Kind {
    match stage
    case WaitOperation => TakeOperation
    case WaitSlot => TakeSlot
    case WaitSlotAgain => TakeSlot
    case WaitAccount => TakeAccount
    case WaitAccountAgain => TakeAccount
    case Working => Finish
    case Yielding => YieldSlot
    case Sleeping => Wake
    case Draining => Finish
    case UnwindAccount => ReleaseAccount
    case UnwindSlot => ReleaseSlot
    case _ => ReleaseOperation
  }

  lemma Blocker(s: State, f: int) returns (g: int)
    requires Inv(s) && f in s.flows && WaitRank(s.flows[f]) >= 0
    requires WaitRank(s.flows[f]) == 0 ==> s.flows[f].account in s.operationOf
    requires WaitRank(s.flows[f]) == 1 ==> !SlotFree(s, s.flows[f].pool)
    requires WaitRank(s.flows[f]) == 2 ==> s.flows[f].account in s.accountOf
    ensures WaitsFor(s, f, g) && !s.flows[g].stage.Exited?
  {
    var flow := s.flows[f];
    if WaitRank(flow) == 0 {
      g := s.operationOf[flow.account];
    } else if WaitRank(flow) == 2 {
      g := s.accountOf[flow.account];
    } else {
      assert Used(s.used, flow.pool.value) >= SLOTS;
      g := Pick(SlotHolders(s, flow.pool.value));
    }
    assert FlowOk(s.flows[g]);
  }
}
