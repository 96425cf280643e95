/**
 The per-account operation lock: reference-counted lock objects that are created and dropped
 while any number of calls wait for them, give up, hold them and release them.
 */
module OperationLock {
  import opened FiniteSets

  /** `token` tells whether the one-place channel of the lock object is full. */
  datatype LockObject = LockObject(account: int, refs: int, token: bool)

  /** The two maps that are guarded by the table's mutex. */
  datatype Table = Table(current: map<int, int>, objects: map<int, LockObject>)

  /** Finds or creates the account's lock object and counts one more reference. */
  function Enter(table: Table, account: int, spare: int): (Table, int) {
    if account in table.current && table.current[account] in table.objects then
      var l := table.current[account];
      var lock := table.objects[l];
      (table.(objects := table.objects[l := lock.(refs := lock.refs + 1)]), l)
    else
      (Table(table.current[account := spare], table.objects[spare := LockObject(account, 1, false)]), spare)
  }

  /** Gives one reference back and drops the account when it was the last one. */
  function Leave(table: Table, account: int, l: int): Table
    requires l in table.objects
  {
    var lock := table.objects[l];
    var objects := table.objects[l := lock.(refs := lock.refs - 1)];
    if lock.refs == 1 && account in table.current && table.current[account] == l
    then Table(table.current - {account}, objects)
    else Table(table.current, objects)
  }

  function SetToken(table: Table, l: int, full: bool): Table
    requires l in table.objects
  {
    table.(objects := table.objects[l := table.objects[l].(token := full)])
  }

  /** The table as the service keeps it; each method is one section under its mutex. */
  class OperationTable {
    var current: map<int, int>
    var objects: map<int, LockObject>
    var nextLock: int

    ghost function Value(): Table
      reads this
    {
      Table(current, objects)
    }

    ghost predicate Valid()
      reads this
    {
      && (forall l :: l in objects ==> l < nextLock)
      && (forall a :: a in current ==> current[a] in objects)
    }

    constructor ()
      ensures Valid() && Value() == Table(map[], map[])
    {
      current, objects, nextLock := map[], map[], 0;
    }

    method Register(account: int) returns (l: int)
      requires Valid()
      modifies this
      ensures Valid()
      ensures old(nextLock) !in old(objects)
      ensures (Value(), l) == Enter(old(Value()), account, old(nextLock))
    {
      if account !in current {
        objects := objects[nextLock := LockObject(account, 0, false)];
        current := current[account := nextLock];
        nextLock := nextLock + 1;
      }
      l := current[account];
      assert old(nextLock) !in old(objects);
      objects := objects[l := objects[l].(refs := objects[l].refs + 1)];
      assert objects == Enter(old(Value()), account, old(nextLock)).0.objects;
    }

    method Deregister(account: int, l: int)
      requires Valid() && l in objects
      modifies this
      ensures Valid() && Value() == Leave(old(Value()), account, l)
    {
      objects := objects[l := objects[l].(refs := objects[l].refs - 1)];
      if objects[l].refs == 0 && account in current && current[account] == l {
        current := current - {account};
      }
    }
  }

  // ---------------------------------------------------------------- interleaved calls

  datatype Phase = Waiting | Holding | Releasing | Finished

  /** One call of acquireOperation and of the release function that it returns. */
  datatype Attempt = Attempt(account: int, lock: int, phase: Phase)

  datatype State = State(table: Table, attempts: map<int, Attempt>)

  datatype Action =
    | Register(t: int, account: int, spare: int)
    | Take(t: int)
    | GiveUp(t: int)
    | FreeToken(t: int)
    | Deregister(t: int)
    | ReleaseAgain(t: int)

  function Initial(): State {
    State(Table(map[], map[]), map[])
  }

  ghost predicate InPhase(s: State, t: int, phase: Phase) {
    t in s.attempts && s.attempts[t].phase == phase && s.attempts[t].lock in s.table.objects
  }

  /** When the step can be taken; a send waits for an empty channel and a receive for a full one. */
  ghost predicate Enabled(s: State, action: Action) {
    match action
    case Register(t, account, spare) => t !in s.attempts && spare !in s.table.objects
    case Take(t) => InPhase(s, t, Waiting) && !s.table.objects[s.attempts[t].lock].token
    case GiveUp(t) => InPhase(s, t, Waiting)
    case FreeToken(t) => InPhase(s, t, Holding) && s.table.objects[s.attempts[t].lock].token
    case Deregister(t) => InPhase(s, t, Releasing)
    case ReleaseAgain(t) => InPhase(s, t, Releasing) || InPhase(s, t, Finished)
  }

  ghost function Moved(s: State, t: int, table: Table, phase: Phase): State
    requires t in s.attempts
  {
    State(table, s.attempts[t := s.attempts[t].(phase := phase)])
  }

  ghost function Step(s: State, action: Action): State
    requires Enabled(s, action)
  {
    match action
    case Register(t, account, spare) =>
      var (table, l) := Enter(s.table, account, spare);
      State(table, s.attempts[t := Attempt(account, l, Waiting)])
    case Take(t) => Moved(s, t, SetToken(s.table, s.attempts[t].lock, true), Holding)
    case GiveUp(t) => Moved(s, t, Leave(s.table, s.attempts[t].account, s.attempts[t].lock), Finished)
    case FreeToken(t) => Moved(s, t, SetToken(s.table, s.attempts[t].lock, false), Releasing)
    case Deregister(t) => Moved(s, t, Leave(s.table, s.attempts[t].account, s.attempts[t].lock), Finished)
    case ReleaseAgain(t) => s
  }

  /** The states that some interleaving of calls leads to. */
  ghost predicate Run(states: seq<State>, actions: seq<Action>) {
    && |states| == |actions| + 1 && states[0] == Initial()
    && forall i :: 0 <= i < |actions| ==> Enabled(states[i], actions[i]) && states[i + 1] == Step(states[i], actions[i])
  }

  // ---------------------------------------------------------------- invariant

  ghost function Registered(s: State, l: int): set<int> {
    set t | t in s.attempts && s.attempts[t].lock == l && s.attempts[t].phase != Finished
  }

  ghost function Holders(s: State, l: int): set<int> {
    set t | t in s.attempts && s.attempts[t].lock == l && s.attempts[t].phase == Holding
  }

  ghost predicate Counted(s: State) {
    forall l :: l in s.table.objects ==>
      && s.table.objects[l].refs == |Registered(s, l)|
      && |Holders(s, l)| == if s.table.objects[l].token then 1 else 0
  }

  ghost predicate Linked(s: State) {
    && (forall t :: t in s.attempts ==>
          && s.attempts[t].lock in s.table.objects
          && s.table.objects[s.attempts[t].lock].account == s.attempts[t].account
          && (s.attempts[t].phase != Finished ==>
                && s.attempts[t].account in s.table.current
                && s.table.current[s.attempts[t].account] == s.attempts[t].lock))
    && (forall a :: a in s.table.current ==>
          && s.table.current[a] in s.table.objects
          && s.table.objects[s.table.current[a]].account == a
          && s.table.objects[s.table.current[a]].refs > 0)
  }

  ghost predicate Inv(s: State) {
    Counted(s) && Linked(s)
  }

  lemma CountsAfterMove(s: State, s': State, t: int, phase: Phase)
    requires t in s.attempts && s'.attempts == s.attempts[t := s.attempts[t].(phase := phase)]
    ensures forall l :: l != s.attempts[t].lock ==>
              Registered(s', l) == Registered(s, l) && Holders(s', l) == Holders(s, l)
    ensures var l := s.attempts[t].lock;
            && Registered(s', l) == (if phase != Finished then Registered(s, l) + {t} else Registered(s, l) - {t})
            && Holders(s', l) == (if phase == Holding then Holders(s, l) + {t} else Holders(s, l) - {t})
  {
  }

  lemma CountsAfterRegister(s: State, s': State, t: int, attempt: Attempt)
    requires t !in s.attempts && s'.attempts == s.attempts[t := attempt] && attempt.phase == Waiting
    ensures forall l :: l != attempt.lock ==> Registered(s', l) == Registered(s, l)
    ensures Registered(s', attempt.lock) == Registered(s, attempt.lock) + {t}
    ensures forall l :: Holders(s', l) == Holders(s, l)
  {
  }

  lemma UnknownLockIsUnused(s: State, l: int)
    requires Linked(s) && l !in s.table.objects
    ensures Registered(s, l) == {} && Holders(s, l) == {}
  {
    assert forall t :: t in s.attempts ==> s.attempts[t].lock in s.table.objects;
  }

  lemma MoveKeepsCounts(s: State, s': State, t: int, phase: Phase)
    requires Counted(s) && t in s.attempts && s.attempts[t].lock in s.table.objects
    requires s'.attempts == s.attempts[t := s.attempts[t].(phase := phase)]
    requires var l, from := s.attempts[t].lock, s.attempts[t].phase;
             var before := s.table.objects[l];
             && from != Finished && (from != phase)
             && exists after :: s'.table.objects == s.table.objects[l := after]
                                && after.refs == before.refs - (if phase == Finished then 1 else 0)
                                && after.token == (if phase == Holding then true
                                                   else if from == Holding then false else before.token)
                                && (phase == Holding ==> !before.token)
    ensures Counted(s')
  {
    hide Registered, Holders;
    var l := s.attempts[t].lock;
    CountsAfterMove(s, s', t, phase);
    WhereIs(s, t);
    OneMoreOrLess(Registered(s, l), t);
    OneMoreOrLess(Holders(s, l), t);
    forall m | m in s'.table.objects
      ensures s'.table.objects[m].refs == |Registered(s', m)|
      ensures |Holders(s', m)| == if s'.table.objects[m].token then 1 else 0
    {
      if m != l {
        assert s'.table.objects[m] == s.table.objects[m];
      }
    }
  }

  lemma StepKeepsCounts(s: State, action: Action)
    requires Inv(s) && Enabled(s, action)
    ensures Counted(Step(s, action))
  {
    var s' := Step(s, action);
    match action
    case Register(t, account, spare) => RegisterKeepsCounts(s, t, account, spare);
    case Take(t) => MoveKeepsCounts(s, s', t, Holding);
    case GiveUp(t) => MoveKeepsCounts(s, s', t, Finished);
    case FreeToken(t) => MoveKeepsCounts(s, s', t, Releasing);
    case Deregister(t) => MoveKeepsCounts(s, s', t, Finished);
    case ReleaseAgain(t) =>
  }

  lemma RegisterKeepsCounts(s: State, t: int, account: int, spare: int)
    requires Inv(s) && Enabled(s, Register(t, account, spare))
    ensures Counted(Step(s, Register(t, account, spare)))
  {
    hide Registered, Holders;
    var s' := Step(s, Register(t, account, spare));
    UnknownLockIsUnused(s, spare);
    CountsAfterRegister(s, s', t, s'.attempts[t]);
    NotYetRegistered(s, t);
    var registered := Registered(s, s'.attempts[t].lock);
    assert |registered + {t}| == |registered| + 1;
  }

  lemma NotYetRegistered(s: State, t: int)
    requires t !in s.attempts
    ensures forall l :: t !in Registered(s, l)
  {
  }

  lemma WhereIs(s: State, t: int)
    requires t in s.attempts
    ensures t in Registered(s, s.attempts[t].lock) <==> s.attempts[t].phase != Finished
    ensures t in Holders(s, s.attempts[t].lock) <==> s.attempts[t].phase == Holding
  {
  }

  /** Dropping the map entry with the last reference strands nobody. */
  lemma StepKeepsLinks(s: State, action: Action)
    requires Inv(s) && Enabled(s, action)
    ensures Linked(Step(s, action))
  {
    var s' := Step(s, action);
    if (action.GiveUp? || action.Deregister?) && s.table.objects[s.attempts[action.t].lock].refs == 1 {
      LastReferenceIsAlone(s, action.t);
    }
    if action.GiveUp? || action.Deregister? {
      assert action.t in Registered(s, s.attempts[action.t].lock);
    }
  }

  lemma LastReferenceIsAlone(s: State, t: int)
    requires Inv(s) && t in s.attempts && s.attempts[t].phase != Finished
    requires s.table.objects[s.attempts[t].lock].refs == 1
    ensures forall u :: u in s.attempts && u != t && s.attempts[u].account == s.attempts[t].account ==>
              s.attempts[u].phase == Finished
  {
    var l := s.attempts[t].lock;
    assert t in Registered(s, l);
    assert |Registered(s, l) - {t}| == 0;
    forall u | u in s.attempts && u != t && s.attempts[u].account == s.attempts[t].account
      ensures s.attempts[u].phase == Finished
    {
      assert u !in Registered(s, l) - {t};
    }
  }

  lemma {:induction false} RunKeepsInv(states: seq<State>, actions: seq<Action>, i: nat)
    requires Run(states, actions) && i <= |actions|
    ensures Inv(states[i])
  {
    if i > 0 {
      RunKeepsInv(states, actions, i - 1);
      StepKeepsCounts(states[i - 1], actions[i - 1]);
      StepKeepsLinks(states[i - 1], actions[i - 1]);
    }
  }

  // ---------------------------------------------------------------- what callers rely on

  /** At most one call holds an account's operation, however often its lock object was replaced. */
  lemma MutualExclusion(states: seq<State>, actions: seq<Action>, i: nat, t: int, u: int)
    requires Run(states, actions) && i <= |actions|
    requires InPhase(states[i], t, Holding) && InPhase(states[i], u, Holding)
    requires states[i].attempts[t].account == states[i].attempts[u].account
    ensures t == u
  {
    RunKeepsInv(states, actions, i);
    var s := states[i];
    var l := s.attempts[t].lock;
    assert t in Holders(s, l) && u in Holders(s, l);
    SingletonIsUnique(Holders(s, l), t, u);
  }

  /** The map knows an account exactly while some call is registered for it, and counts those calls. */
  lemma MapHoldsExactlyTheUsedAccounts(states: seq<State>, actions: seq<Action>, i: nat, account: int)
    requires Run(states, actions) && i <= |actions|
    ensures account in states[i].table.current <==>
              exists t :: t in states[i].attempts && states[i].attempts[t].account == account
                          && states[i].attempts[t].phase != Finished
    ensures account in states[i].table.current ==>
              && states[i].table.current[account] in states[i].table.objects
              && states[i].table.objects[states[i].table.current[account]].refs ==
                 |set t | t in states[i].attempts && states[i].attempts[t].account == account
                          && states[i].attempts[t].phase != Finished|
  {
    RunKeepsInv(states, actions, i);
    var s := states[i];
    var calls := set t | t in s.attempts && s.attempts[t].account == account && s.attempts[t].phase != Finished;
    if account in s.table.current {
      var l := s.table.current[account];
      forall t
        ensures t in Registered(s, l) <==> t in calls
      {
      }
      assert Registered(s, l) == calls;
      var t := Pick(calls);
    }
  }

  /** A release never blocks: the channel of a held lock is full. */
  lemma ReleaseNeverBlocks(states: seq<State>, actions: seq<Action>, i: nat, t: int)
    requires Run(states, actions) && i <= |actions|
    requires InPhase(states[i], t, Holding)
    ensures Enabled(states[i], FreeToken(t))
  {
    RunKeepsInv(states, actions, i);
    assert t in Holders(states[i], states[i].attempts[t].lock);
  }

  /** A waiting call is let in as soon as nobody holds its account. */
  lemma FreeAccountAdmitsAWaiter(states: seq<State>, actions: seq<Action>, i: nat, t: int)
    requires Run(states, actions) && i <= |actions|
    requires InPhase(states[i], t, Waiting)
    requires forall u :: InPhase(states[i], u, Holding) ==>
               states[i].attempts[u].account != states[i].attempts[t].account
    ensures Enabled(states[i], Take(t))
  {
    RunKeepsInv(states, actions, i);
    var s := states[i];
    var l := s.attempts[t].lock;
    if s.table.objects[l].token {
      var u := Pick(Holders(s, l));
      assert InPhase(s, u, Holding);
    }
  }
}
