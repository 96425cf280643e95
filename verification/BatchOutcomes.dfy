/**
 The bookkeeping of a batch of alias deletions: scheduling the input items into account groups, running
 the groups interleaved, and giving every input exactly one outcome and one progress report.
 */
module BatchOutcomes {
  import opened Wrappers
  import opened BatchLog

  /** What an operation that may panic, or may end its worker's goroutine, comes to. */
  datatype Event = Done(error: Option<int>) | Broken | Gone

  /** What an item is completed with when its deletion has answered. */
  function AnswerError(result: Option<int>): Option<Fault> {
    if result.None? then None else Some(DeletionFailed(result.value))
  }

  datatype Draw = Draw(ended: bool, found: Lookup, event: Event, panics: bool, lost: bool, choice: nat)

  /**
   The surroundings: the store, the accounts, the caller's context and callback, and the scheduler.
   Every answer is read off `script`, so a property of all scripts is one of all answers.
   */
  class World {
    const available: bool  // the repository and the client support deletion
    const script: nat -> Draw
    var cursor: nat
    var ended: bool
    ghost var log: Log

    constructor (available: bool, script: nat -> Draw)
      ensures this.available == available && this.script == script && log == [] && Valid()
    {
      this.available, this.script, cursor, ended, log := available, script, 0, false, [];
    }

    /** A context that has ended stays ended. */
    ghost predicate Valid()
      reads this
    {
      Interrupted in log ==> ended
    }

    method Next() returns (d: Draw)
      modifies this`cursor
    {
      d := script(cursor);
      cursor := cursor + 1;
    }

    /** The caller's context. */
    method Ended() returns (r: bool)
      requires Valid()
      modifies this
      ensures Valid() && log == old(log) + (if r then [Interrupted] else [])
      ensures !r ==> Interrupted !in log
    {
      var d := Next();
      ended := ended || d.ended;
      if ended { log := log + [Interrupted]; }
      r := ended;
    }

    method GetAlias(item: Item) returns (found: Lookup)
      modifies this`cursor, this`log
      ensures log == old(log) + [Looked(item, found)]
    {
      var d := Next();
      found := d.found;
      log := log + [Looked(item, found)];
    }

    /** The operation lock, an execution slot and the account lock. */
    method Acquire(account: int) returns (e: Event)
      modifies this`cursor, this`log
      ensures log == old(log) + match e
                                case Done(None) => []
                                case Done(Some(code)) => [Refused(account, code)]
                                case Broken => [Crashed(account)]
                                case Gone => [Lost(account)]
    {
      var d := Next();
      e := d.event;
      match e {
        case Done(None) =>
        case Done(Some(code)) => log := log + [Refused(account, code)];
        case Broken => log := log + [Crashed(account)];
        case Gone => log := log + [Lost(account)];
      }
    }

    /** The whole deletion of one item. */
    method Delete(account: int, item: Item) returns (e: Event)
      modifies this`cursor, this`log
      ensures log == old(log) + [match e
                                 case Done(result) => Deleted(account, item, result)
                                 case Broken => Crashed(account)
                                 case Gone => Lost(account)]
    {
      var d := Next();
      e := d.event;
      match e {
        case Done(result) => log := log + [Deleted(account, item, result)];
        case Broken => log := log + [Crashed(account)];
        case Gone => log := log + [Lost(account)];
      }
    }

    /** Whether the worker gets to its next item at all. */
    method Alive(account: int) returns (r: bool)
      modifies this`cursor, this`log
      ensures log == old(log) + (if r then [] else [Lost(account)])
    {
      var d := Next();
      r := !d.lost;
      if d.lost { log := log + [Lost(account)]; }
    }

    /** The progress callback. */
    method Report(item: Item, outcome: Outcome) returns (panicked: bool)
      modifies this`cursor, this`log
      ensures log == old(log) + [Called(item, outcome)] + (if panicked then [Choked(item)] else [])
    {
      var d := Next();
      panicked := d.panics;
      log := log + [Called(item, outcome)];
      if panicked { log := log + [Choked(item)]; }
    }

    method Choose(n: nat) returns (w: nat)
      requires n > 0
      modifies this`cursor
      ensures w < n
    {
      var d := Next();
      w := d.choice % n;
    }
  }

  /** The inputs completed so far are those reported, with the same outcomes. */
  predicate Tells(ids: seq<int>, log: Log, outcomes: seq<Outcome>, completed: seq<bool>) {
    && |outcomes| == |completed| == |ids|
    && forall i :: 0 <= i < |ids| ==>
         && (completed[i] <==> Told(log, i))
         && (completed[i] ==> Called(Item(i, ids[i]), outcomes[i]) in log)
  }

  lemma EntryKept(
    ids: seq<int>, available: bool, log: Log, e: Entry, outcomes: seq<Outcome>, completed: seq<bool>)
    requires Lawful(ids, available, log) && Tells(ids, log, outcomes, completed)
    requires Allowed(ids, available, log, e) && !e.Called?
    ensures Lawful(ids, available, log + [e]) && Tells(ids, log + [e], outcomes, completed)
    ensures FirstFailure(log + [e]) == if FirstFailure(log).Some? then FirstFailure(log) else FailureOf(e)
    ensures Hindered(log + [e]) <==> Hindered(log) || e.Interrupted? || FailureOf(e).Some?
  {
    LawfulOneMore(ids, available, log, e);
    FirstFailureOneMore(log, e);
    hide Lawful, Allowed, Told, FailureOf, FirstFailure, Hindered;
    forall i | 0 <= i < |ids|
      ensures Told(log + [e], i) <==> Told(log, i)
    {
      ToldOneMore(log, e, i);
    }
  }

  lemma TellsOneMore(
    ids: seq<int>, log: Log, outcomes: seq<Outcome>, completed: seq<bool>, index: nat, outcome: Outcome)
    requires Tells(ids, log, outcomes, completed) && index < |ids| && !completed[index]
    ensures !Told(log, index) && Told(log + [Called(Item(index, ids[index]), outcome)], index)
    ensures Tells(ids, log + [Called(Item(index, ids[index]), outcome)], outcomes[index := outcome],
                  completed[index := true])
  {
    var e := Called(Item(index, ids[index]), outcome);
    hide Told;
    forall i | 0 <= i < |ids|
      ensures Told(log + [e], i) <==> Told(log, i) || i == index
      ensures completed[i] ==> Called(Item(i, ids[i]), outcomes[i]) in log + [e]
    {
      ToldOneMore(log, e, i);
    }
  }

  lemma CallKept(
    ids: seq<int>, available: bool, log: Log, outcomes: seq<Outcome>, completed: seq<bool>, index: nat,
    outcome: Outcome)
    requires Lawful(ids, available, log) && Tells(ids, log, outcomes, completed)
    requires index < |ids| == |completed| == |outcomes| && !completed[index] && outcome.aliasId == ids[index]
    requires Explains(ids, available, log, Item(index, ids[index]), outcome.error)
    ensures var longer := log + [Called(Item(index, ids[index]), outcome)];
            && Lawful(ids, available, longer) && Told(longer, index)
            && Tells(ids, longer, outcomes[index := outcome], completed[index := true])
            && FirstFailure(longer) == (if FirstFailure(log).Some? then FirstFailure(log)
                                        else if outcome.error == Some(WorkerStopped) then outcome.error else None)
  {
    hide Lawful, Tells, Explains, Told, FirstFailure, Hindered;
    TellsOneMore(ids, log, outcomes, completed, index, outcome);
    LawfulOneMore(ids, available, log, Called(Item(index, ids[index]), outcome));
    FirstFailureOneMore(log, Called(Item(index, ids[index]), outcome));
  }

  /** The log has grown by the report of one input, which may have panicked. */
  predicate Reported(before: Log, after: Log, item: Item, outcome: Outcome) {
    after == before + [Called(item, outcome)] || after == before + [Called(item, outcome)] + [Choked(item)]
  }

  lemma ReportedForms(before: Log, after: Log, item: Item, outcome: Outcome)
    requires Reported(before, after, item, outcome)
    ensures |after| == |before| + 1 ==> after == before + [Called(item, outcome)]
    ensures |after| > |before| + 1 ==> after == before + [Called(item, outcome)] + [Choked(item)]
    ensures |after| > |before| && (Interrupted in after ==> Interrupted in before)
  {
  }

  lemma ReportKept(
    ids: seq<int>, available: bool, before: Log, after: Log, outcomes: seq<Outcome>, completed: seq<bool>,
    index: nat, outcome: Outcome)
    requires Lawful(ids, available, before) && Tells(ids, before, outcomes, completed)
    requires index < |ids| == |completed| == |outcomes| && !completed[index] && outcome.aliasId == ids[index]
    requires Explains(ids, available, before, Item(index, ids[index]), outcome.error)
    requires Reported(before, after, Item(index, ids[index]), outcome)
    ensures Lawful(ids, available, after)
    ensures Tells(ids, after, outcomes[index := outcome], completed[index := true])
    ensures Interrupted in after ==> Interrupted in before
    ensures FirstFailure(after) == (if FirstFailure(before).Some? then FirstFailure(before)
                                    else if outcome.error == Some(WorkerStopped) then outcome.error
                                    else if |after| > |before| + 1 then Some(Panicked) else None)
  {
    hide Lawful, Tells, Explains, FirstFailure, Told, Hindered, Reported;
    var item := Item(index, ids[index]);
    ReportedForms(before, after, item, outcome);
    CallKept(ids, available, before, outcomes, completed, index, outcome);
    if |after| > |before| + 1 {
      ChokeKept(ids, available, before + [Called(item, outcome)], item, outcomes[index := outcome],
                completed[index := true]);
    }
  }

  lemma ChokeKept(
    ids: seq<int>, available: bool, log: Log, item: Item, outcomes: seq<Outcome>, completed: seq<bool>)
    requires Lawful(ids, available, log) && Tells(ids, log, outcomes, completed) && Told(log, item.index)
    ensures Lawful(ids, available, log + [Choked(item)]) && Tells(ids, log + [Choked(item)], outcomes, completed)
    ensures FirstFailure(log + [Choked(item)]) == if FirstFailure(log).Some? then FirstFailure(log) else Some(Panicked)
  {
    hide Lawful, Tells, FirstFailure, Told, Hindered;
    EntryKept(ids, available, log, Choked(item), outcomes, completed);
  }

  class Progress {
    const ids: seq<int>
    const world: World
    const outcomes: array<Outcome>
    const completed: array<bool>
    var batchErr: Option<Fault>
    var cancelled: bool

    ghost predicate Kept()
      reads this, world, outcomes, completed
    {
      && outcomes.Length == completed.Length == |ids|
      && world.Valid() && Lawful(ids, world.available, world.log)
      && Tells(ids, world.log, outcomes[..], completed[..])
      && (cancelled <==> batchErr.Some?)
    }

    /** The batch's error is the first failure. */
    ghost predicate Valid()
      reads this, world, outcomes, completed
    {
      Kept() && batchErr == FirstFailure(world.log)
    }

    constructor (ids: seq<int>, world: World)
      requires world.Valid() && world.log == []
      ensures Valid() && this.ids == ids && this.world == world && fresh(outcomes) && fresh(completed)
      ensures forall i :: 0 <= i < |ids| ==> !completed[i]
    {
      this.ids, this.world := ids, world;
      outcomes := new Outcome[|ids|](_ => Outcome(0, None));
      completed := new bool[|ids|](_ => false);
      batchErr, cancelled := None, false;
    }

    /** Keeps the first error and stops new work. */
    method Fail(fault: Fault)
      requires Kept() && FirstFailure(world.log) == (if batchErr.Some? then batchErr else Some(fault))
      modifies this
      ensures Valid() && cancelled
    {
      hide Lawful, Tells;
      if batchErr.None? { batchErr := Some(fault); }
      cancelled := true;
    }

    /** The batch's own context. */
    method ContextErr() returns (stop: bool)
      requires Valid()
      modifies world
      ensures Valid() && (stop <==> Hindered(world.log))
      ensures world.log == old(world.log) || (stop && world.log == old(world.log) + [Interrupted])
    {
      if cancelled {
        return true;
      }
      ghost var before := world.log;
      stop := world.Ended();
      if stop {
        EntryKept(ids, world.available, before, Interrupted, outcomes[..], completed[..]);
      } else {
        assert world.log == before;
      }
      hide Lawful, Tells, FirstFailure;
    }

    /** Records and reports an outcome unless the input has one already. */
    method Complete(index: nat, error: Option<Fault>)
      requires Kept() && index < |ids|
      requires !completed[index] ==> Explains(ids, world.available, world.log, Item(index, ids[index]), error)
      requires if FirstFailure(world.log).None? && !completed[index] && error == Some(WorkerStopped)
               then batchErr == error
               else batchErr == FirstFailure(world.log)
      modifies this, outcomes, completed, world
      ensures Valid() && completed[..] == old(completed[..])[index := true]
      ensures if old(completed[index]) then world.log == old(world.log)
              else Reported(old(world.log), world.log, Item(index, ids[index]), Outcome(ids[index], error))
    {
      hide Lawful, Tells, Explains, FirstFailure;
      if completed[index] {
        assert completed[..] == old(completed[..])[index := true];
        return;
      }
      var item, outcome := Item(index, ids[index]), Outcome(ids[index], error);
      outcomes[index] := outcome;
      completed[index] := true;
      assert completed[..] == old(completed[..])[index := true];
      assert outcomes[..] == old(outcomes[..])[index := outcome];
      var panicked := world.Report(item, outcome);
      ReportKept(ids, world.available, old(world.log), world.log, old(outcomes[..]), old(completed[..]), index,
                 outcome);
      if panicked {
        Fail(Panicked);
      }
    }
  }

  // ---------------------------------------------------------------- scheduling

  datatype Group = Group(account: int, items: seq<nat>)

  predicate Ascending(items: seq<nat>) {
    forall j, k :: 0 <= j < k < |items| ==> items[j] < items[k]
  }

  /** One group per account. */
  predicate OnePerAccount(groups: seq<Group>) {
    forall g, h :: 0 <= g < h < |groups| ==> groups[g].account != groups[h].account
  }

  /** The lookup of a new valid input gave the account. */
  predicate Scheduled(ids: seq<int>, log: Log, account: int, i: nat) {
    i < |ids| && ids[i] >= 1 && !Repeated(ids, i) && Looked(Item(i, ids[i]), Account(account)) in log
  }

  /** A group has open inputs of its account, in input order. */
  predicate Fitting(ids: seq<int>, group: Group, completed: seq<bool>, log: Log, n: nat) {
    && n <= |completed| == |ids| && group.account >= 1 && Ascending(group.items)
    && forall i :: i in group.items ==> i < n && !completed[i] && Scheduled(ids, log, group.account, i)
  }

  predicate InSome(groups: seq<Group>, i: nat) {
    exists g :: 0 <= g < |groups| && i in groups[g].items
  }

  /** Each open input below n is in the one group of its account. */
  predicate Grouped(ids: seq<int>, groups: seq<Group>, completed: seq<bool>, log: Log, n: nat) {
    && n <= |completed| == |ids| && OnePerAccount(groups)
    && (forall g :: 0 <= g < |groups| ==> Fitting(ids, groups[g], completed, log, n))
    && (forall i :: 0 <= i < n && !completed[i] ==> InSome(groups, i))
  }

  /** The positions of the groups by account. */
  predicate Positions(byAccount: map<int, nat>, groups: seq<Group>) {
    && (forall a :: a in byAccount ==> byAccount[a] < |groups| && groups[byAccount[a]].account == a)
    && (forall g :: 0 <= g < |groups| ==> groups[g].account in byAccount && byAccount[groups[g].account] == g)
  }

  function Joined(groups: seq<Group>, byAccount: map<int, nat>, account: int, item: nat): seq<Group>
    requires account in byAccount ==> byAccount[account] < |groups|
  {
    if account in byAccount
    then var g := groups[byAccount[account]]; groups[byAccount[account] := g.(items := g.items + [item])]
    else groups + [Group(account, [item])]
  }

  lemma ItemFits(ids: seq<int>, group: Group, completed: seq<bool>, log: Log, n: nat)
    requires Fitting(ids, group, completed, log, n) && n < |completed| && !completed[n]
    requires Scheduled(ids, log, group.account, n)
    ensures Fitting(ids, group.(items := group.items + [n]), completed, log, n + 1)
  {
    hide Scheduled;
    var items := group.items + [n];
    forall j, k | 0 <= j < k < |items|
      ensures items[j] < items[k]
    {
      assert items[j] == group.items[j] && group.items[j] in group.items;
    }
  }

  lemma ItemJoins(
    ids: seq<int>, groups: seq<Group>, byAccount: map<int, nat>, completed: seq<bool>, log: Log, n: nat, a: int)
    requires Grouped(ids, groups, completed, log, n) && Positions(byAccount, groups)
    requires n < |completed| && !completed[n] && a >= 1 && Scheduled(ids, log, a, n)
    ensures Grouped(ids, Joined(groups, byAccount, a, n), completed, log, n + 1)
  {
    hide Scheduled;
    var after := Joined(groups, byAccount, a, n);
    var at := if a in byAccount then byAccount[a] else |groups|;
    forall g | 0 <= g < |after|
      ensures Fitting(ids, after[g], completed, log, n + 1)
    {
      if g < |groups| {
        assert Fitting(ids, groups[g], completed, log, n);
        if g == at { ItemFits(ids, groups[g], completed, log, n); }
      }
    }
    forall i | 0 <= i < n + 1 && !completed[i]
      ensures InSome(after, i)
    {
      if i == n {
        assert n in after[at].items;
      } else {
        assert InSome(groups, i);
        var g :| 0 <= g < |groups| && i in groups[g].items;
        assert i in after[g].items;
      }
    }
    hide Fitting, InSome;
  }

  lemma ItemDropsOut(ids: seq<int>, groups: seq<Group>, before: seq<bool>, after: seq<bool>, log: Log, n: nat)
    requires Grouped(ids, groups, before, log, n) && n < |after| == |before|
    requires after[n] && forall i :: 0 <= i < n ==> after[i] == before[i]
    ensures Grouped(ids, groups, after, log, n + 1)
  {
    hide Scheduled;
    forall g | 0 <= g < |groups|
      ensures Fitting(ids, groups[g], after, log, n + 1)
    {
      assert Fitting(ids, groups[g], before, log, n);
    }
    hide InSome, Fitting;
  }

  lemma GroupedLater(ids: seq<int>, groups: seq<Group>, completed: seq<bool>, log: Log, longer: Log, n: nat)
    requires Grouped(ids, groups, completed, log, n) && log <= longer
    ensures Grouped(ids, groups, completed, longer, n)
  {
    hide InSome, Ascending;
    forall g | 0 <= g < |groups|
      ensures Fitting(ids, groups[g], completed, longer, n)
    {
      assert Fitting(ids, groups[g], completed, log, n);
    }
  }

  /** What scheduling logs: lookups of the first n inputs, and reports. */
  predicate SiftEntry(e: Entry, n: nat) {
    match e
    case Looked(item, _) => item.index < n
    case Interrupted => true
    case Called(_, _) => true
    case Choked(_) => true
    case _ => false
  }

  predicate Sifting(log: Log, n: nat) {
    forall k :: 0 <= k < |log| ==> SiftEntry(log[k], n)
  }

  lemma SiftingMeans(log: Log, n: nat)
    requires Sifting(log, n)
    ensures forall i :: i >= n ==> Unlooked(log, i)
    ensures forall i :: !Attempted(log, i)
    ensures forall a :: Running(log, a) && !Begun(log, a)
    ensures forall a, i :: Later(log, a, i)
  {
    assert forall k :: 0 <= k < |log| ==> SiftEntry(log[k], n);
  }

  ghost predicate Seen(ids: seq<int>, n: nat, seen: set<int>)
    requires n <= |ids|
  {
    forall x :: x in seen <==> x >= 1 && x in ids[..n]
  }

  /** The checks of one input before it is scheduled; a lookup that panics also fails the batch. */
  method Triage(p: Progress, index: nat, seen: set<int>) returns (r: Result<int, Fault>)
    requires p.Valid() && index < |p.ids| && Seen(p.ids, index, seen) && Sifting(p.world.log, index)
    modifies p, p.world
    ensures p.Valid() && Sifting(p.world.log, index + 1) && old(p.world.log) <= p.world.log
    ensures r.Ok? ==> r.value >= 1 && Scheduled(p.ids, p.world.log, r.value, index)
    ensures r.Fail? ==> r.error != WorkerStopped
    ensures r.Fail? ==>
              Explains(p.ids, p.world.available, p.world.log, Item(index, p.ids[index]), Some(r.error))
  {
    hide Tells, Lawful, FirstFailure;
    SiftingMeans(p.world.log, index);
    var item := Item(index, p.ids[index]);
    if p.ids[index] < 1 {
      return Fail(NotPositive);
    }
    if p.ids[index] in seen {
      return Fail(Duplicate);
    }
    var stop := p.ContextErr();
    SiftingMeans(p.world.log, index);
    if stop {
      return Fail(Cancelled);
    }
    if !p.world.available {
      return Fail(Unavailable);
    }
    ghost var before := p.world.log;
    var found := p.world.GetAlias(item);
    EntryKept(p.ids, p.world.available, before, Looked(item, found), p.outcomes[..], p.completed[..]);
    SiftingMeans(p.world.log, index + 1);
    match found {
      case Panic =>
        p.Fail(Panicked);
        r := Fail(Panicked);
      case Failure(code) => r := Fail(LookupFailed(code));
      case Account(id) => r := if id < 1 then Fail(BadAccount) else Ok(id);
    }
  }

  /** Settles what can be settled at once and collects the rest in one group per account. */
  method Schedule(p: Progress) returns (groups: seq<Group>)
    requires p.Valid() && p.world.log == [] && forall i :: 0 <= i < |p.ids| ==> !p.completed[i]
    modifies p, p.outcomes, p.completed, p.world
    ensures p.Valid() && Sifting(p.world.log, |p.ids|)
    ensures Grouped(p.ids, groups, p.completed[..], p.world.log, |p.ids|)
  {
    hide Lawful, Tells, FirstFailure, Grouped, Positions, Explains, Scheduled, SiftEntry;
    groups := [];
    var byAccount: map<int, nat> := map[];
    var seen: set<int> := {};
    NoGroups(p.ids, p.completed[..], p.world.log);
    for i := 0 to |p.ids|
      invariant p.Valid() && Seen(p.ids, i, seen) && Sifting(p.world.log, i)
      invariant forall k :: i <= k < |p.ids| ==> !p.completed[k]
      invariant Grouped(p.ids, groups, p.completed[..], p.world.log, i) && Positions(byAccount, groups)
    {
      ghost var before, log := p.completed[..], p.world.log;
      var r := Triage(p, i, seen);
      SeenOneMore(p.ids, i, seen);
      GroupedLater(p.ids, groups, before, log, p.world.log, i);
      if p.ids[i] >= 1 { seen := seen + {p.ids[i]}; }
      if r.Fail? {
        log := p.world.log;
        p.Complete(i, Some(r.error));
        SiftingReported(log, p.world.log, i + 1, Item(i, p.ids[i]), Outcome(p.ids[i], Some(r.error)));
        ItemDropsOut(p.ids, groups, before, p.completed[..], log, i);
        GroupedLater(p.ids, groups, p.completed[..], log, p.world.log, i + 1);
      } else {
        ItemJoins(p.ids, groups, byAccount, p.completed[..], p.world.log, i, r.value);
        PositionsKept(groups, byAccount, r.value, i);
        var g := if r.value in byAccount then byAccount[r.value] else |groups|;
        groups := Joined(groups, byAccount, r.value, i);
        byAccount := byAccount[r.value := g];
      }
      assert forall k :: i < k < |p.ids| ==> p.completed[..][k] == p.completed[k];
    }
  }

  lemma SiftingReported(before: Log, after: Log, n: nat, item: Item, outcome: Outcome)
    requires Sifting(before, n) && Reported(before, after, item, outcome)
    ensures Sifting(after, n) && before <= after
  {
    assert forall k :: |before| <= k < |after| ==> SiftEntry(after[k], n);
    hide SiftEntry;
  }

  lemma NoGroups(ids: seq<int>, completed: seq<bool>, log: Log)
    requires |completed| == |ids|
    ensures Grouped(ids, [], completed, log, 0) && Positions(map[], [])
  {
  }

  lemma SeenOneMore(ids: seq<int>, n: nat, seen: set<int>)
    requires n < |ids| && Seen(ids, n, seen)
    ensures Seen(ids, n + 1, if ids[n] >= 1 then seen + {ids[n]} else seen)
  {
    assert ids[..n + 1] == ids[..n] + [ids[n]];
  }

  lemma PositionsKept(groups: seq<Group>, byAccount: map<int, nat>, account: int, item: nat)
    requires Positions(byAccount, groups)
    ensures account in byAccount ==> byAccount[account] < |groups|
    ensures Positions(byAccount[account := if account in byAccount then byAccount[account] else |groups|],
                      Joined(groups, byAccount, account, item))
  {
  }

  // ---------------------------------------------------------------- running the groups

  /** A group's run: the items left, whether its locks were asked for, and the error that ends it, if any. */
  datatype Worker = Worker(account: int, items: seq<nat>, begun: bool, ending: Option<Fault>)

  function Weight(worker: Worker): nat {
    1 + |worker.items| + (if worker.begun then 0 else 1) + (if worker.ending.Some? then 0 else 1)
  }

  function Left(workers: seq<Worker>): nat {
    if workers == [] then 0 else Weight(workers[0]) + Left(workers[1..])
  }

  /** The worker has moved on to `next`, or has ended. */
  function Replaced(workers: seq<Worker>, w: nat, next: Option<Worker>): seq<Worker>
    requires w < |workers|
  {
    if next.Some? then workers[w := next.value] else workers[..w] + workers[w + 1..]
  }

  lemma {:induction false} LessLeft(workers: seq<Worker>, w: nat, next: Option<Worker>)
    requires w < |workers| && (next.Some? ==> Weight(next.value) < Weight(workers[w]))
    ensures Left(Replaced(workers, w, next)) < Left(workers)
    decreases |workers|
  {
    if w == 0 {
      assert Replaced(workers, 0, next)[if next.Some? then 1 else 0..] == workers[1..];
    } else {
      LessLeft(workers[1..], w - 1, next);
      assert Replaced(workers, w, next)[1..] == Replaced(workers[1..], w - 1, next);
      assert Replaced(workers, w, next)[0] == workers[0];
    }
  }

  /** The input waits for its own deletion, which will come after those of earlier inputs. */
  predicate Pending(ids: seq<int>, log: Log, account: int, i: nat) {
    Scheduled(ids, log, account, i) && !Told(log, i) && !Attempted(log, i) && Later(log, account, i)
  }

  /** A group runs on, or ends for a cause of its own or the batch's. */
  predicate Caused(log: Log, worker: Worker) {
    match worker.ending
    case None => Running(log, worker.account)
    case Some(Cancelled) => Hindered(log) && Running(log, worker.account) && !Begun(log, worker.account)
    case Some(GroupFailed(code)) => Refused(worker.account, code) in log
    case Some(Panicked) => Crashed(worker.account) in log
    case Some(_) => false
  }

  predicate Ready(ids: seq<int>, log: Log, worker: Worker) {
    && worker.account >= 1 && Ascending(worker.items) && Lost(worker.account) !in log
    && (forall i :: i in worker.items ==> Pending(ids, log, worker.account, i))
    && Caused(log, worker) && (!worker.begun ==> !Begun(log, worker.account))
  }

  /** What a worker may log. */
  predicate Own(worker: Worker, e: Entry) {
    match e
    case Interrupted => true
    case Looked(_, _) => false
    case Refused(a, _) => a == worker.account
    case Deleted(a, item, _) => a == worker.account && item.index in worker.items
    case Crashed(a) => a == worker.account
    case Lost(a) => a == worker.account
    case Called(item, _) => item.index in worker.items
    case Choked(_) => true
  }

  /** What does not concern a worker. */
  predicate Foreign(worker: Worker, e: Entry) {
    match e
    case Interrupted => true
    case Looked(_, _) => false
    case Refused(a, _) => a != worker.account
    case Deleted(a, item, _) => a != worker.account && item.index !in worker.items
    case Crashed(a) => a != worker.account
    case Lost(a) => a != worker.account
    case Called(item, _) => item.index !in worker.items
    case Choked(_) => true
  }

  predicate Grew(worker: Worker, before: Log, after: Log) {
    before <= after && forall k :: |before| <= k < |after| ==> Own(worker, after[k])
  }

  lemma PendingOneMore(ids: seq<int>, log: Log, e: Entry, account: int, i: nat)
    requires Pending(ids, log, account, i)
    requires !e.Looked? && (e.Called? ==> e.item.index != i)
    requires e.Deleted? ==> e.item.index != i && (e.account == account ==> e.item.index < i)
    ensures Pending(ids, log + [e], account, i)
  {
    ToldOneMore(log, e, i);
    AttemptedOneMore(log, e, i);
    hide Told, Attempted, Repeated;
  }

  lemma CausedOneMore(log: Log, e: Entry, worker: Worker)
    requires Caused(log, worker) && !IsEnd(e, worker.account)
    requires e.Deleted? ==> e.account != worker.account
    ensures Caused(log + [e], worker)
  {
    RunningOneMore(log, e, worker.account);
    BegunOneMore(log, e, worker.account);
    FirstFailureOneMore(log, e);
    hide Running, Begun, FirstFailure, Hindered;
  }

  /** What concerns other accounts leaves a worker ready. */
  lemma StaysReady(ids: seq<int>, log: Log, e: Entry, worker: Worker)
    requires Ready(ids, log, worker) && Foreign(worker, e)
    ensures Ready(ids, log + [e], worker)
  {
    CausedOneMore(log, e, worker);
    BegunOneMore(log, e, worker.account);
    hide Caused, Begun, Pending, Ascending;
    forall i | i in worker.items
      ensures Pending(ids, log + [e], worker.account, i)
    {
      PendingOneMore(ids, log, e, worker.account, i);
    }
  }

  lemma {:induction false} StaysReadyThrough(ids: seq<int>, before: Log, after: Log, worker: Worker)
    requires Ready(ids, before, worker) && before <= after
    requires forall k :: |before| <= k < |after| ==> Foreign(worker, after[k])
    ensures Ready(ids, after, worker)
    decreases |after|
  {
    hide Ready, Foreign;
    if |before| == |after| {
      assert before == after;
    } else {
      var front := after[..|after| - 1];
      StaysReadyThrough(ids, before, front, worker);
      StaysReady(ids, front, after[|after| - 1], worker);
      assert after == front + [after[|after| - 1]];
    }
  }

  /** Workers of different accounts share no item. */
  lemma NoSharedItem(ids: seq<int>, available: bool, log: Log, v: Worker, w: Worker, i: nat)
    requires Lawful(ids, available, log) && Ready(ids, log, v) && Ready(ids, log, w) && v.account != w.account
    requires i in v.items
    ensures i !in w.items
  {
    assert Pending(ids, log, v.account, i);
    hide Lawful, Told, Attempted, Later, Repeated, Caused;
    if i in w.items {
      assert Pending(ids, log, w.account, i);
      LookedOnce(ids, available, log, Item(i, ids[i]), Account(v.account), Account(w.account));
    }
  }

  lemma OwnIsForeign(ids: seq<int>, available: bool, log: Log, v: Worker, w: Worker, e: Entry)
    requires Lawful(ids, available, log) && Ready(ids, log, v) && Ready(ids, log, w) && v.account != w.account
    requires Own(v, e)
    ensures Foreign(w, e)
  {
    hide Lawful, Ready;
    if (e.Deleted? || e.Called?) && e.item.index in v.items {
      NoSharedItem(ids, available, log, v, w, e.item.index);
    }
  }

  /** The workers are ready, one an account. */
  predicate AllReady(ids: seq<int>, log: Log, workers: seq<Worker>) {
    && (forall w :: 0 <= w < |workers| ==> Ready(ids, log, workers[w]))
    && (forall v, w :: 0 <= v < w < |workers| ==> workers[v].account != workers[w].account)
  }

  predicate InWorkers(workers: seq<Worker>, i: nat) {
    exists w :: 0 <= w < |workers| && i in workers[w].items
  }

  /** The worker of the input's group was lost. */
  ghost predicate Dropped(ids: seq<int>, log: Log, i: nat) {
    exists a :: a >= 1 && Scheduled(ids, log, a, i) && Lost(a) in log
  }

  /** No open input is forgotten. */
  ghost predicate Covered(ids: seq<int>, log: Log, completed: seq<bool>, workers: seq<Worker>) {
    |completed| == |ids| &&
    forall i :: 0 <= i < |ids| && !completed[i] ==> InWorkers(workers, i) || Dropped(ids, log, i)
  }

  /** From the n-th entry on, whatever was deleted has its outcome. */
  predicate Resolved(log: Log, n: nat, completed: seq<bool>) {
    forall k :: n <= k < |log| && log[k].Deleted? ==> log[k].item.index < |completed| && completed[log[k].item.index]
  }

  /** One step of a worker: nothing settled, or its first item; or its end, with no item left or as lost. */
  predicate Stepped(
    ids: seq<int>, worker: Worker, next: Option<Worker>, before: seq<bool>, after: seq<bool>, log: Log, longer: Log)
  {
    && Grew(worker, log, longer) && Resolved(longer, |log|, after)
    && match next
       case None => after == before && (worker.items == [] || Lost(worker.account) in longer)
       case Some(next) =>
         && Ready(ids, longer, next) && next.account == worker.account && Weight(next) < Weight(worker)
         && (|| (next.items == worker.items && after == before)
             || (&& worker.items != [] && worker.items[0] < |before|
                 && next.items == worker.items[1..] && after == before[worker.items[0] := true]))
  }

  /** A step of one worker leaves all the others ready. */
  lemma WorkersStayReady(
    ids: seq<int>, available: bool, log: Log, longer: Log, workers: seq<Worker>, w: nat, next: Option<Worker>)
    requires Lawful(ids, available, log) && AllReady(ids, log, workers) && w < |workers|
    requires Grew(workers[w], log, longer)
    requires next.Some? ==> Ready(ids, longer, next.value) && next.value.account == workers[w].account
    ensures AllReady(ids, longer, Replaced(workers, w, next))
  {
    hide Lawful, Ready, Own, Foreign;
    forall v | 0 <= v < |workers| && v != w
      ensures Ready(ids, longer, workers[v])
    {
      assert workers[v].account != workers[w].account;
      forall k | |log| <= k < |longer|
        ensures Foreign(workers[v], longer[k])
      {
        OwnIsForeign(ids, available, log, workers[w], workers[v], longer[k]);
      }
      StaysReadyThrough(ids, log, longer, workers[v]);
    }
  }

  lemma DroppedStays(ids: seq<int>, log: Log, longer: Log, i: nat)
    requires Dropped(ids, log, i) && log <= longer
    ensures Dropped(ids, longer, i)
  {
    hide Repeated;
    var a :| a >= 1 && Scheduled(ids, log, a, i) && Lost(a) in log;
    assert Scheduled(ids, longer, a, i);
  }

  lemma StaysCovered(
    ids: seq<int>, log: Log, longer: Log, before: seq<bool>, after: seq<bool>, workers: seq<Worker>, w: nat,
    next: Option<Worker>)
    requires Covered(ids, log, before, workers) && AllReady(ids, log, workers) && w < |workers|
    requires Stepped(ids, workers[w], next, before, after, log, longer)
    ensures Covered(ids, longer, after, Replaced(workers, w, next))
  {
    var all := Replaced(workers, w, next);
    forall i | 0 <= i < |ids| && !after[i]
      ensures InWorkers(all, i) || Dropped(ids, longer, i)
    {
      assert !before[i];
      if Dropped(ids, log, i) {
        DroppedStays(ids, log, longer, i);
      } else {
        var v :| 0 <= v < |workers| && i in workers[v].items;
        StaysIn(ids, log, longer, before, after, workers, w, next, v, i);
      }
    }
  }

  lemma StaysIn(
    ids: seq<int>, log: Log, longer: Log, before: seq<bool>, after: seq<bool>, workers: seq<Worker>, w: nat,
    next: Option<Worker>, v: nat, i: nat)
    requires AllReady(ids, log, workers) && w < |workers| && v < |workers| && i in workers[v].items
    requires Stepped(ids, workers[w], next, before, after, log, longer)
    requires i < |after| == |before| && !after[i]
    ensures InWorkers(Replaced(workers, w, next), i) || Dropped(ids, longer, i)
  {
    var all := Replaced(workers, w, next);
    hide Ready, Own;
    if v != w {
      var u := if next.Some? || v < w then v else v - 1;
      assert all[u] == workers[v];
    } else if next.Some? {
      assert all[w] == next.value;
      assert workers[w].items[0] != i || next.value.items == workers[w].items;
      TailHas(workers[w].items, i);
    } else {
      IsDropped(ids, log, longer, workers[w], i);
    }
  }

  lemma TailHas(items: seq<nat>, i: nat)
    requires i in items
    ensures i == items[0] || i in items[1..]
  {
  }

  lemma IsDropped(ids: seq<int>, log: Log, longer: Log, worker: Worker, i: nat)
    requires Ready(ids, log, worker) && i in worker.items && log <= longer && Lost(worker.account) in longer
    ensures Dropped(ids, longer, i)
  {
    assert Pending(ids, log, worker.account, i);
    hide Repeated, Told, Attempted, Later;
    assert Scheduled(ids, longer, worker.account, i);
  }

  lemma StillReady(ids: seq<int>, log: Log, longer: Log, worker: Worker)
    requires Ready(ids, log, worker) && (longer == log || longer == log + [Interrupted])
    ensures Ready(ids, longer, worker) && Grew(worker, log, longer)
  {
    StaysReady(ids, log, Interrupted, worker);
  }

  /** A cancelled batch starts no group. */
  lemma CancelledReady(ids: seq<int>, log: Log, worker: Worker)
    requires Ready(ids, log, worker) && worker.ending.None? && !worker.begun && Hindered(log)
    ensures Ready(ids, log, worker.(begun := true, ending := Some(Cancelled)))
  {
  }

  /** A group that is refused or crashes keeps its items until they are given the group's error. */
  lemma EndedReady(ids: seq<int>, log: Log, worker: Worker, e: Entry, ending: Fault)
    requires Ready(ids, log, worker) && worker.ending.None?
    requires || (e == Crashed(worker.account) && ending == Panicked)
             || (ending.GroupFailed? && e == Refused(worker.account, ending.code) && !worker.begun)
    ensures Ready(ids, log + [e], worker.(begun := true, ending := Some(ending)))
    ensures forall available :: Allowed(ids, available, log, e)
    ensures Grew(worker, log, log + [e])
  {
    hide Begun, Pending, Ascending, Running;
    forall i | i in worker.items
      ensures Pending(ids, log + [e], worker.account, i)
    {
      PendingOneMore(ids, log, e, worker.account, i);
    }
  }

  /** The account's locks; cancellation is looked at again once they are held. */
  method Enter(p: Progress, worker: Worker) returns (next: Option<Worker>)
    requires p.Valid() && Ready(p.ids, p.world.log, worker) && !worker.begun && worker.ending.None?
    modifies p, p.world
    ensures p.Valid() && Stepped(p.ids, worker, next, p.completed[..], p.completed[..], old(p.world.log), p.world.log)
  {
    hide Lawful, Tells, FirstFailure, Hindered, Ready, Running, Begun;
    ghost var log := p.world.log;
    var e := p.world.Acquire(worker.account);
    match e {
      case Done(None) =>
        assert p.world.log == log;
        next := GoOn(p, worker);
      case Done(Some(code)) =>
        EndedReady(p.ids, log, worker, Refused(worker.account, code), GroupFailed(code));
        EntryKept(p.ids, p.world.available, log, Refused(worker.account, code), p.outcomes[..], p.completed[..]);
        next := Some(worker.(begun := true, ending := Some(GroupFailed(code))));
      case Broken =>
        EndedReady(p.ids, log, worker, Crashed(worker.account), Panicked);
        EntryKept(p.ids, p.world.available, log, Crashed(worker.account), p.outcomes[..], p.completed[..]);
        p.Fail(Panicked);
        next := Some(worker.(begun := true, ending := Some(Panicked)));
      case Gone =>
        NotLostYet(p.ids, log, worker);
        EntryKept(p.ids, p.world.available, log, Lost(worker.account), p.outcomes[..], p.completed[..]);
        next := None;
    }
  }

  /** The group may start unless the batch was cancelled. */
  method GoOn(p: Progress, worker: Worker) returns (next: Option<Worker>)
    requires p.Valid() && Ready(p.ids, p.world.log, worker) && !worker.begun && worker.ending.None?
    modifies p.world
    ensures p.Valid() && Stepped(p.ids, worker, next, p.completed[..], p.completed[..], old(p.world.log), p.world.log)
  {
    hide Lawful, Tells, FirstFailure, Hindered, Ready;
    var stop := p.ContextErr();
    StillReady(p.ids, old(p.world.log), p.world.log, worker);
    if stop {
      CancelledReady(p.ids, p.world.log, worker);
      next := Some(worker.(begun := true, ending := Some(Cancelled)));
    } else {
      BegunReady(p.ids, p.world.log, worker);
      next := Some(worker.(begun := true));
    }
  }

  /** A cancelled batch does not even ask for the locks. */
  method Begin(p: Progress, worker: Worker) returns (next: Option<Worker>)
    requires p.Valid() && Ready(p.ids, p.world.log, worker) && !worker.begun && worker.ending.None?
    modifies p, p.world
    ensures p.Valid() && Stepped(p.ids, worker, next, p.completed[..], p.completed[..], old(p.world.log), p.world.log)
  {
    hide Lawful, Tells, FirstFailure, Hindered, Ready;
    var stop := p.ContextErr();
    if stop {
      StillReady(p.ids, old(p.world.log), p.world.log, worker);
      CancelledReady(p.ids, p.world.log, worker);
      next := Some(worker.(begun := true, ending := Some(Cancelled)));
    } else {
      hide Stepped;
      next := Enter(p, worker);
    }
  }

  lemma BegunReady(ids: seq<int>, log: Log, worker: Worker)
    requires Ready(ids, log, worker) && worker.ending.None?
    ensures Ready(ids, log, worker.(begun := true))
  {
  }

  lemma NotLostYet(ids: seq<int>, log: Log, worker: Worker)
    requires Ready(ids, log, worker)
    ensures forall available :: Allowed(ids, available, log, Lost(worker.account))
    ensures Grew(worker, log, log + [Lost(worker.account)])
  {
  }

  /** The deletion of the first item was carried out: it calls for its outcome, and the others wait. */
  lemma DeletedReady(ids: seq<int>, available: bool, log: Log, worker: Worker, result: Option<int>)
    requires Ready(ids, log, worker) && worker.items != [] && worker.begun && worker.ending.None?
    ensures var i := worker.items[0];
            && i < |ids| && !Told(log, i)
            && var e := Deleted(worker.account, Item(i, ids[i]), result);
            && Allowed(ids, available, log, e) && Own(worker, e)
            && Ready(ids, log + [e], worker.(items := worker.items[1..]))
            && Explains(ids, available, log + [e], Item(i, ids[i]), AnswerError(result))
  {
    var i, rest := worker.items[0], worker.(items := worker.items[1..]);
    assert Pending(ids, log, worker.account, i);
    hide Told, Attempted, Later, Repeated, Begun;
    var e := Deleted(worker.account, Item(i, ids[i]), result);
    RunningOneMore(log, e, worker.account);
    assert e in log + [e];
    forall k | k in rest.items
      ensures Pending(ids, log + [e], worker.account, k)
    {
      assert k in worker.items && i < k;
      PendingOneMore(ids, log, e, worker.account, k);
    }
  }

  /** The first item is reported, whatever came just before. */
  lemma ReportedStep(
    ids: seq<int>, worker: Worker, log: Log, middle: Log, longer: Log, outcome: Outcome, before: seq<bool>,
    after: seq<bool>)
    requires worker.items != [] && Ascending(worker.items) && worker.items[0] < |ids| == |before|
    requires Grew(worker, log, middle) && Ready(ids, middle, worker.(items := worker.items[1..]))
    requires Reported(middle, longer, Item(worker.items[0], ids[worker.items[0]]), outcome)
    requires after == before[worker.items[0] := true] && Resolved(middle, |log|, after)
    ensures Stepped(ids, worker, Some(worker.(items := worker.items[1..])), before, after, log, longer)
  {
    hide Ready;
    StaysReadyThrough(ids, middle, longer, worker.(items := worker.items[1..]));
    forall k | |log| <= k < |longer|
      ensures Own(worker, longer[k])
    {
      if k < |middle| { assert longer[k] == middle[k]; }
    }
  }

  lemma NotCompletedYet(ids: seq<int>, log: Log, outcomes: seq<Outcome>, completed: seq<bool>, i: nat)
    requires Tells(ids, log, outcomes, completed) && i < |ids| && !Told(log, i)
    ensures i < |completed| && !completed[i]
  {
  }

  lemma ItemsAscend(ids: seq<int>, log: Log, worker: Worker)
    requires Ready(ids, log, worker)
    ensures Ascending(worker.items)
    ensures forall i :: i in worker.items ==> i < |ids| && !Told(log, i)
  {
    hide Told, Caused;
    assert forall i :: i in worker.items ==> Pending(ids, log, worker.account, i);
  }

  /** The next deletion of the group, if any is left. */
  method RunOne(p: Progress, worker: Worker) returns (next: Option<Worker>)
    requires p.Valid() && Ready(p.ids, p.world.log, worker) && worker.begun && worker.ending.None?
    modifies p, p.outcomes, p.completed, p.world
    ensures p.Valid()
    ensures Stepped(p.ids, worker, next, old(p.completed[..]), p.completed[..], old(p.world.log), p.world.log)
  {
    hide Lawful, Tells, FirstFailure, Hindered, Ready, Running, Begun, Explains, Allowed, Told;
    if worker.items == [] {
      return None;
    }
    ghost var log := p.world.log;
    NotLostYet(p.ids, log, worker);
    ItemsAscend(p.ids, log, worker);
    var index := worker.items[0];
    assert index in worker.items;
    NotCompletedYet(p.ids, log, p.outcomes[..], p.completed[..], index);
    var item := Item(index, p.ids[index]);
    var e := p.world.Delete(worker.account, item);
    match e {
      case Done(result) =>
        var rest := worker.(items := worker.items[1..]);
        DeletedReady(p.ids, p.world.available, log, worker, result);
        EntryKept(p.ids, p.world.available, log, Deleted(worker.account, item, result), p.outcomes[..],
                  p.completed[..]);
        ghost var middle, before := p.world.log, p.completed[..];
        p.Complete(index, AnswerError(result));
        ReportedStep(p.ids, worker, log, middle, p.world.log, Outcome(p.ids[index], AnswerError(result)), before,
                     p.completed[..]);
        next := Some(rest);
      case Broken =>
        EndedReady(p.ids, log, worker, Crashed(worker.account), Panicked);
        EntryKept(p.ids, p.world.available, log, Crashed(worker.account), p.outcomes[..], p.completed[..]);
        p.Fail(Panicked);
        next := Some(worker.(begun := true, ending := Some(Panicked)));
      case Gone =>
        EntryKept(p.ids, p.world.available, log, Lost(worker.account), p.outcomes[..], p.completed[..]);
        next := None;
    }
  }

  /** An ended group's items are given its error, one by one, while the worker lives. */
  method FinishOne(p: Progress, worker: Worker) returns (next: Option<Worker>)
    requires p.Valid() && Ready(p.ids, p.world.log, worker) && worker.ending.Some?
    modifies p, p.outcomes, p.completed, p.world
    ensures p.Valid()
    ensures Stepped(p.ids, worker, next, old(p.completed[..]), p.completed[..], old(p.world.log), p.world.log)
  {
    hide Lawful, Tells, FirstFailure, Hindered, Ready, Running, Begun, Explains, Allowed, Told;
    if worker.items == [] {
      return None;
    }
    ghost var log, before := p.world.log, p.completed[..];
    NotLostYet(p.ids, log, worker);
    var alive := p.world.Alive(worker.account);
    if !alive {
      EntryKept(p.ids, p.world.available, log, Lost(worker.account), p.outcomes[..], p.completed[..]);
      return None;
    }
    assert p.world.log == log;
    ItemsAscend(p.ids, log, worker);
    EndingExplains(p.ids, p.world.available, log, worker);
    var index := worker.items[0];
    assert index in worker.items;
    NotCompletedYet(p.ids, log, p.outcomes[..], p.completed[..], index);
    p.Complete(index, worker.ending);
    next := Some(worker.(items := worker.items[1..]));
    ReportedStep(p.ids, worker, log, log, p.world.log, Outcome(p.ids[index], worker.ending), before, p.completed[..]);
  }

  /** The end of a group explains the outcome of each item it still has. */
  lemma EndingExplains(ids: seq<int>, available: bool, log: Log, worker: Worker)
    requires Ready(ids, log, worker) && worker.ending.Some? && worker.items != []
    ensures var i := worker.items[0];
            i < |ids| && worker.ending != Some(WorkerStopped)
            && Explains(ids, available, log, Item(i, ids[i]), worker.ending)
    ensures Ready(ids, log, worker.(items := worker.items[1..]))
  {
    var i := worker.items[0];
    assert Pending(ids, log, worker.account, i);
    hide Told, Attempted, Later, Repeated, Begun, Running, Hindered;
  }

  method Advance(p: Progress, worker: Worker) returns (next: Option<Worker>)
    requires p.Valid() && Ready(p.ids, p.world.log, worker)
    modifies p, p.outcomes, p.completed, p.world
    ensures p.Valid()
    ensures Stepped(p.ids, worker, next, old(p.completed[..]), p.completed[..], old(p.world.log), p.world.log)
  {
    hide Lawful, Tells, FirstFailure, Ready, Stepped;
    if worker.ending.Some? {
      next := FinishOne(p, worker);
    } else if !worker.begun {
      next := Begin(p, worker);
    } else {
      next := RunOne(p, worker);
    }
  }

  /** At first every group waits, and every open input is in one. */
  lemma GroupsReady(
    ids: seq<int>, log: Log, outcomes: seq<Outcome>, completed: seq<bool>, groups: seq<Group>, workers: seq<Worker>)
    requires Tells(ids, log, outcomes, completed) && Sifting(log, |ids|)
    requires Grouped(ids, groups, completed, log, |ids|) && |workers| == |groups|
    requires forall g :: 0 <= g < |groups| ==> workers[g] == Worker(groups[g].account, groups[g].items, false, None)
    ensures AllReady(ids, log, workers) && Covered(ids, log, completed, workers)
  {
    SiftingMeans(log, |ids|);
    hide Sifting, Told, Attempted, Later, Begun, Running, Scheduled, Ascending;
    forall w | 0 <= w < |workers|
      ensures Ready(ids, log, workers[w])
    {
      assert Fitting(ids, groups[w], completed, log, |ids|);
      NoneLost(log, groups[w].account);
    }
    forall i | 0 <= i < |ids| && !completed[i]
      ensures InWorkers(workers, i)
    {
      var g :| 0 <= g < |groups| && i in groups[g].items;
      assert i in workers[g].items;
    }
  }

  lemma NoneResolved(log: Log, n: nat, completed: seq<bool>)
    requires Sifting(log, n)
    ensures Resolved(log, 0, completed)
  {
    assert forall k :: 0 <= k < |log| ==> SiftEntry(log[k], n);
  }

  lemma NoneLost(log: Log, account: int)
    requires Running(log, account)
    ensures Lost(account) !in log
  {
  }

  /** Runs the groups in any interleaving until every worker has ended or is lost. */
  method RunWorkers(p: Progress, groups: seq<Group>)
    requires p.Valid() && Sifting(p.world.log, |p.ids|)
    requires Grouped(p.ids, groups, p.completed[..], p.world.log, |p.ids|)
    modifies p, p.outcomes, p.completed, p.world
    ensures p.Valid() && Resolved(p.world.log, 0, p.completed[..])
    ensures forall i :: 0 <= i < |p.ids| ==> p.completed[..][i] || Dropped(p.ids, p.world.log, i)
  {
    var workers := seq(|groups|, g requires 0 <= g < |groups| =>
                         Worker(groups[g].account, groups[g].items, false, None));
    hide Lawful, Tells, FirstFailure, Grouped, Sifting, Ready, Stepped, Resolved;
    NoneResolved(p.world.log, |p.ids|, p.completed[..]);
    GroupsReady(p.ids, p.world.log, p.outcomes[..], p.completed[..], groups, workers);
    while workers != []
      invariant p.Valid() && AllReady(p.ids, p.world.log, workers) && Resolved(p.world.log, 0, p.completed[..])
      invariant Covered(p.ids, p.world.log, p.completed[..], workers)
      decreases Left(workers)
    {
      ghost var log, before, all := p.world.log, p.completed[..], workers;
      var w := p.world.Choose(|workers|);
      var next := Advance(p, workers[w]);
      SteppedIs(p.ids, workers[w], next, before, p.completed[..], log, p.world.log);
      LessLeft(workers, w, next);
      WorkersStayReady(p.ids, p.world.available, log, p.world.log, workers, w, next);
      StaysCovered(p.ids, log, p.world.log, before, p.completed[..], workers, w, next);
      workers := Replaced(workers, w, next);
    }
    assert forall i :: !InWorkers(workers, i);
  }

  lemma SteppedIs(
    ids: seq<int>, worker: Worker, next: Option<Worker>, before: seq<bool>, after: seq<bool>, log: Log, longer: Log)
    requires Stepped(ids, worker, next, before, after, log, longer) && Resolved(log, 0, before)
    ensures Grew(worker, log, longer) && Resolved(longer, 0, after)
    ensures next.Some? ==>
              && Ready(ids, longer, next.value) && next.value.account == worker.account
              && Weight(next.value) < Weight(worker)
  {
    hide Ready, Own;
    forall k | 0 <= k < |longer| && longer[k].Deleted?
      ensures longer[k].item.index < |after| && after[longer[k].item.index]
    {
      if k < |log| { assert longer[k] == log[k]; }
    }
  }

  // ---------------------------------------------------------------- the whole batch

  /** An input whose worker was lost gets the batch's error, which is its own if there was none before. */
  lemma DroppedExplains(ids: seq<int>, available: bool, log: Log, completed: seq<bool>, i: nat)
    requires Lawful(ids, available, log) && Dropped(ids, log, i)
    requires Resolved(log, 0, completed) && i < |completed| && !completed[i]
    ensures i < |ids|
    ensures Explains(ids, available, log, Item(i, ids[i]),
                     if FirstFailure(log).Some? then FirstFailure(log) else Some(WorkerStopped))
  {
    FailuresAreFew(log);
    hide Lawful, Repeated, FirstFailure;
    var a :| a >= 1 && Scheduled(ids, log, a, i) && Lost(a) in log;
    assert InLost(log, Item(i, ids[i]));
  }

  lemma {:induction false} FailuresAreFew(log: Log)
    ensures FirstFailure(log).None? || FirstFailure(log) == Some(Panicked) || FirstFailure(log) == Some(WorkerStopped)
  {
    if log != [] { FailuresAreFew(log[..|log| - 1]); }
  }

  lemma ReportResolved(before: Log, after: Log, item: Item, outcome: Outcome, completed: seq<bool>, i: nat)
    requires Resolved(before, 0, completed) && Reported(before, after, item, outcome) && i < |completed|
    ensures Resolved(after, 0, completed[i := true]) && before <= after
  {
  }

  /** Gives every input left open by a lost worker the batch's error. */
  method Finalize(p: Progress)
    requires p.Valid() && Resolved(p.world.log, 0, p.completed[..])
    requires forall i :: 0 <= i < |p.ids| ==> p.completed[..][i] || Dropped(p.ids, p.world.log, i)
    modifies p, p.outcomes, p.completed, p.world
    ensures p.Valid() && Answers(p.ids, p.world.log, p.outcomes[..])
  {
    hide Lawful, Tells, FirstFailure, Dropped, Explains, Resolved, Reported;
    for index := 0 to |p.ids|
      invariant p.Valid() && Resolved(p.world.log, 0, p.completed[..])
      invariant forall i :: 0 <= i < |p.ids| ==> p.completed[..][i] || Dropped(p.ids, p.world.log, i)
      invariant forall k :: 0 <= k < index ==> p.completed[..][k]
    {
      if !p.completed[index] {
        assert !p.completed[..][index];
        ghost var log, before := p.world.log, p.completed[..];
        DroppedExplains(p.ids, p.world.available, log, before, index);
        if p.batchErr.None? {
          p.batchErr, p.cancelled := Some(WorkerStopped), true;
        }
        var error := p.batchErr;
        p.Complete(index, error);
        ReportResolved(log, p.world.log, Item(index, p.ids[index]), Outcome(p.ids[index], error), before, index);
        forall i | 0 <= i < |p.ids|
          ensures p.completed[..][i] || Dropped(p.ids, p.world.log, i)
        {
          if Dropped(p.ids, log, i) { DroppedStays(p.ids, log, p.world.log, i); }
        }
      }
    }
    AllTold(p.ids, p.world.log, p.outcomes[..], p.completed[..]);
  }

  lemma AllTold(ids: seq<int>, log: Log, outcomes: seq<Outcome>, completed: seq<bool>)
    requires Tells(ids, log, outcomes, completed) && forall i :: 0 <= i < |ids| ==> completed[i]
    ensures Answers(ids, log, outcomes)
  {
  }

  /**
   For every mix of inputs, whatever the surroundings do and however the groups interleave: each input gets
   exactly the outcome that what happened to it calls for, in input order, and is reported once with it; the
   error of the batch is its first failure.
   */
  method DeleteAliases(ids: seq<int>, world: World)
    returns (outcomes: seq<Outcome>, batchErr: Option<Fault>, emptyInput: bool)
    requires world.Valid() && world.log == []
    modifies world
    ensures emptyInput <==> ids == []
    ensures Lawful(ids, world.available, world.log)
    ensures Answers(ids, world.log, outcomes)
    ensures batchErr == FirstFailure(world.log)
  {
    if |ids| == 0 {
      return [], None, true;
    }
    hide Lawful, Tells, FirstFailure, Answers, Dropped;
    var p := new Progress(ids, world);
    var groups := Schedule(p);
    RunWorkers(p, groups);
    Finalize(p);
    return p.outcomes[..], p.batchErr, false;
  }
}
