/**
 What happens around one batch of alias deletions, in order: the scheduling lookups, the accounts that
 refuse, crash or lose their worker, the deletions carried out and the progress callbacks. The predicates
 say which logs a batch may produce; nothing here depends on how the batch keeps its books.
 */
module BatchLog {
  import opened Wrappers

  datatype Fault =
    | NotPositive | Duplicate | Cancelled | Unavailable | LookupFailed(code: int) | BadAccount
    | DeletionFailed(code: int) | GroupFailed(code: int) | Panicked | WorkerStopped

  datatype Item = Item(index: nat, aliasId: int)

  datatype Outcome = Outcome(aliasId: int, error: Option<Fault>)

  /** The scheduling lookup of an alias. */
  datatype Lookup = Account(id: int) | Failure(code: int) | Panic

  /**
   The caller's context was found ended; an alias was looked up; an account's locks could not be had; the
   deletion of an item gave a result; a group's run panicked; a worker ended without a word; an outcome was
   reported; a report panicked.
   */
  datatype Entry =
    | Interrupted
    | Looked(item: Item, found: Lookup)
    | Refused(account: int, code: int)
    | Deleted(account: int, item: Item, result: Option<int>)
    | Crashed(account: int)
    | Lost(account: int)
    | Called(item: Item, outcome: Outcome)
    | Choked(item: Item)

  type Log = seq<Entry>

  // ---------------------------------------------------------------- reading a log

  predicate Genuine(ids: seq<int>, item: Item) {
    item.index < |ids| && item.aliasId == ids[item.index]
  }

  predicate Repeated(ids: seq<int>, i: nat)
    requires i < |ids|
  {
    ids[i] >= 1 && ids[i] in ids[..i]
  }

  predicate Unlooked(log: Log, i: nat) {
    forall k :: 0 <= k < |log| && log[k].Looked? ==> log[k].item.index != i
  }

  /** The item's own deletion has ended with a result. */
  predicate Attempted(log: Log, i: nat) {
    exists k :: 0 <= k < |log| && log[k].Deleted? && log[k].item.index == i
  }

  predicate Told(log: Log, i: nat) {
    exists k :: 0 <= k < |log| && log[k].Called? && log[k].item.index == i
  }

  /** Some deletion of the group has ended with a result. */
  predicate Begun(log: Log, account: int) {
    exists k :: 0 <= k < |log| && log[k].Deleted? && log[k].account == account
  }

  /** The deletions of the group so far were of earlier inputs. */
  predicate Later(log: Log, account: int, i: nat) {
    forall k :: 0 <= k < |log| && log[k].Deleted? && log[k].account == account ==> log[k].item.index < i
  }

  predicate IsEnd(e: Entry, account: int) {
    (e.Refused? || e.Crashed? || e.Lost?) && e.account == account
  }

  predicate Running(log: Log, account: int) {
    forall k :: 0 <= k < |log| ==> !IsEnd(log[k], account)
  }

  function FailureOf(e: Entry): Option<Fault> {
    match e
    case Looked(_, Panic) => Some(Panicked)
    case Crashed(_) => Some(Panicked)
    case Choked(_) => Some(Panicked)
    case Called(_, outcome) => if outcome.error == Some(WorkerStopped) then outcome.error else None
    case _ => None
  }

  /** The first failure of the batch itself: a panic anywhere, or an input found abandoned at the end. */
  function FirstFailure(log: Log): Option<Fault> {
    if log == [] then None
    else
      var earlier := FirstFailure(log[..|log| - 1]);
      if earlier.Some? then earlier else FailureOf(log[|log| - 1])
  }

  predicate Hindered(log: Log) {
    Interrupted in log || FirstFailure(log).Some?
  }

  // ---------------------------------------------------------------- the outcome a log calls for

  predicate FromDeletion(error: Option<Fault>) { error.None? || error.value.DeletionFailed? }

  /** The item's deletion ended well, or failed with the very code that the error carries. */
  ghost predicate Ran(log: Log, item: Item, error: Option<Fault>) {
    match error
    case None => exists a :: Deleted(a, item, None) in log
    case Some(DeletionFailed(code)) => exists a :: Deleted(a, item, Some(code)) in log
    case _ => false
  }

  /** The item's group has not started and can still start. */
  ghost predicate Waiting(log: Log, item: Item) {
    exists a :: a >= 1 && Looked(item, Account(a)) in log && Running(log, a) && !Begun(log, a)
  }

  ghost predicate InRefused(log: Log, item: Item, code: int) {
    exists a :: a >= 1 && Looked(item, Account(a)) in log && Refused(a, code) in log
  }

  ghost predicate InCrashed(log: Log, item: Item) {
    exists a :: a >= 1 && Looked(item, Account(a)) in log && Crashed(a) in log
  }

  ghost predicate InLost(log: Log, item: Item) {
    exists a :: a >= 1 && Looked(item, Account(a)) in log && Lost(a) in log
  }

  ghost predicate BadlyOwned(log: Log, item: Item) {
    exists a :: a < 1 && Looked(item, Account(a)) in log
  }

  /** Each error has its own cause in the log, in the item's own group where a group is the cause. */
  ghost predicate Explains(ids: seq<int>, available: bool, log: Log, item: Item, error: Option<Fault>)
    requires Genuine(ids, item)
  {
    if item.aliasId < 1 then error == Some(NotPositive)
    else if Repeated(ids, item.index) then error == Some(Duplicate)
    else if FromDeletion(error) then Ran(log, item, error)
    else
      && !Attempted(log, item.index)
      && match error.value
         case Cancelled => Hindered(log) && (Unlooked(log, item.index) || Waiting(log, item))
         case Unavailable => !available && !Hindered(log) && Unlooked(log, item.index)
         case LookupFailed(code) => Looked(item, Failure(code)) in log
         case BadAccount => BadlyOwned(log, item)
         case GroupFailed(code) => InRefused(log, item, code)
         case Panicked =>
           || Looked(item, Panic) in log || InCrashed(log, item)
           || (InLost(log, item) && FirstFailure(log) == Some(Panicked))
         case WorkerStopped => InLost(log, item) && FirstFailure(log) != Some(Panicked)
         case _ => false
  }

  // ---------------------------------------------------------------- what a batch may do next

  /**
   No lookup after a cancellation or failure; no deletion but of an item of the running group of its
   account, in input order and once; no outcome but the one that the log before it calls for, and that once.
   */
  ghost predicate Allowed(ids: seq<int>, available: bool, log: Log, e: Entry) {
    match e
    case Interrupted => true
    case Looked(item, _) =>
      && Genuine(ids, item) && item.aliasId >= 1 && !Repeated(ids, item.index)
      && available && !Hindered(log) && Unlooked(log, item.index)
    case Refused(a, _) => Running(log, a) && !Begun(log, a)
    case Deleted(a, item, _) =>
      && a >= 1 && Looked(item, Account(a)) in log && Running(log, a) && Later(log, a, item.index)
      && !Attempted(log, item.index) && !Told(log, item.index)
    case Crashed(a) => Running(log, a)
    case Lost(a) => Lost(a) !in log
    case Called(item, outcome) =>
      && Genuine(ids, item) && outcome.aliasId == item.aliasId && !Told(log, item.index)
      && Explains(ids, available, log, item, outcome.error)
    case Choked(item) => Told(log, item.index)
  }

  ghost predicate Lawful(ids: seq<int>, available: bool, log: Log) {
    forall k :: 0 <= k < |log| ==> Allowed(ids, available, log[..k], log[k])
  }

  /** What the caller gets back is what was reported. */
  predicate Answers(ids: seq<int>, log: Log, outcomes: seq<Outcome>) {
    && |outcomes| == |ids|
    && forall i :: 0 <= i < |ids| ==> Called(Item(i, ids[i]), outcomes[i]) in log
  }

  lemma LawfulOneMore(ids: seq<int>, available: bool, log: Log, e: Entry)
    requires Lawful(ids, available, log) && Allowed(ids, available, log, e)
    ensures Lawful(ids, available, log + [e])
  {
    hide Allowed;
    var longer := log + [e];
    forall k | 0 <= k < |longer|
      ensures Allowed(ids, available, longer[..k], longer[k])
    {
      if k < |log| { assert longer[..k] == log[..k]; } else { assert longer[..k] == log; }
    }
  }

  lemma FirstFailureOneMore(log: Log, e: Entry)
    ensures FirstFailure(log + [e]) == if FirstFailure(log).Some? then FirstFailure(log) else FailureOf(e)
    ensures Hindered(log + [e]) <==> Hindered(log) || e.Interrupted? || FailureOf(e).Some?
  {
    assert (log + [e])[..|log|] == log;
    hide FailureOf;
  }

  lemma AttemptedOneMore(log: Log, e: Entry, i: nat)
    ensures Attempted(log + [e], i) <==> Attempted(log, i) || (e.Deleted? && e.item.index == i)
  {
    var longer := log + [e];
    if Attempted(log, i) {
      var k :| 0 <= k < |log| && log[k].Deleted? && log[k].item.index == i;
      assert longer[k] == log[k];
    }
    assert longer[|log|] == e;
  }

  lemma ToldOneMore(log: Log, e: Entry, i: nat)
    ensures Told(log + [e], i) <==> Told(log, i) || (e.Called? && e.item.index == i)
  {
    var longer := log + [e];
    if Told(log, i) {
      var k :| 0 <= k < |log| && log[k].Called? && log[k].item.index == i;
      assert longer[k] == log[k];
    }
    assert longer[|log|] == e;
  }

  lemma BegunOneMore(log: Log, e: Entry, a: int)
    ensures Begun(log + [e], a) <==> Begun(log, a) || (e.Deleted? && e.account == a)
  {
    var longer := log + [e];
    if Begun(log, a) {
      var k :| 0 <= k < |log| && log[k].Deleted? && log[k].account == a;
      assert longer[k] == log[k];
    }
    assert longer[|log|] == e;
  }

  lemma RunningOneMore(log: Log, e: Entry, a: int)
    ensures Running(log + [e], a) <==> Running(log, a) && !IsEnd(e, a)
  {
    var longer := log + [e];
    assert longer[|log|] == e;
    if Running(longer, a) {
      assert forall k :: 0 <= k < |log| ==> longer[k] == log[k];
    }
    hide IsEnd;
  }

  // ---------------------------------------------------------------- what a lawful log means

  /** Entries in a log have a place, and the log before it allowed them. */
  lemma WasAllowed(ids: seq<int>, available: bool, log: Log, e: Entry) returns (k: nat)
    requires Lawful(ids, available, log) && e in log
    ensures k < |log| && log[k] == e && Allowed(ids, available, log[..k], e)
  {
    hide Allowed;
    k :| 0 <= k < |log| && log[k] == e;
  }

  lemma LookupsDiffer(ids: seq<int>, available: bool, log: Log, j: nat, k: nat)
    requires Lawful(ids, available, log) && j < k < |log| && log[j].Looked? && log[k].Looked?
    ensures log[j].item.index != log[k].item.index
  {
    assert Allowed(ids, available, log[..k], log[k]);
    hide Hindered, Repeated;
    assert log[..k][j] == log[j];
  }

  lemma LookedOnce(ids: seq<int>, available: bool, log: Log, item: Item, x: Lookup, y: Lookup)
    requires Lawful(ids, available, log)
    requires Looked(item, x) in log && Looked(item, y) in log
    ensures x == y
  {
    hide Lawful, Allowed;
    var j: nat :| j < |log| && log[j] == Looked(item, x);
    var k: nat :| k < |log| && log[k] == Looked(item, y);
    if j < k {
      LookupsDiffer(ids, available, log, j, k);
    } else if k < j {
      LookupsDiffer(ids, available, log, k, j);
    }
  }

  /** No input is reported twice. */
  lemma ReportsDiffer(ids: seq<int>, available: bool, log: Log, j: nat, k: nat)
    requires Lawful(ids, available, log) && j < k < |log| && log[j].Called? && log[k].Called?
    ensures log[j].item.index != log[k].item.index
  {
    assert Allowed(ids, available, log[..k], log[k]);
    hide Explains;
    assert log[..k][j] == log[j];
  }

  /** No input is deleted twice, and the items of an account are deleted in input order. */
  lemma DeletionsDiffer(ids: seq<int>, available: bool, log: Log, j: nat, k: nat)
    requires Lawful(ids, available, log) && j < k < |log| && log[j].Deleted? && log[k].Deleted?
    ensures log[j].item.index != log[k].item.index
    ensures log[j].account == log[k].account ==> log[j].item.index < log[k].item.index
  {
    assert Allowed(ids, available, log[..k], log[k]);
    hide Told, Running;
    assert log[..k][j] == log[j];
  }

  /** After a group was refused, has crashed or has lost its worker, nothing of it is deleted. */
  lemma NothingAfterTheEnd(ids: seq<int>, available: bool, log: Log, j: nat, k: nat)
    requires Lawful(ids, available, log) && j < k < |log| && log[k].Deleted?
    ensures !IsEnd(log[j], log[k].account)
  {
    assert Allowed(ids, available, log[..k], log[k]);
    hide Told, Attempted, Later, IsEnd;
    assert log[..k][j] == log[j];
  }

  /** A group is refused only as a whole: before its first deletion and before any other end. */
  lemma RefusedAsAWhole(ids: seq<int>, available: bool, log: Log, j: nat, k: nat)
    requires Lawful(ids, available, log) && j < k < |log| && log[k].Refused?
    ensures !(log[j].Deleted? && log[j].account == log[k].account) && !IsEnd(log[j], log[k].account)
  {
    assert Allowed(ids, available, log[..k], log[k]);
    hide IsEnd;
    assert log[..k][j] == log[j];
  }

  lemma DeletedBeforeTold(ids: seq<int>, available: bool, log: Log, ran: nat, told: nat)
    requires Lawful(ids, available, log) && ran < |log| && told < |log| && log[ran].Deleted? && log[told].Called?
    requires log[ran].item.index == log[told].item.index
    ensures ran < told
  {
    assert Allowed(ids, available, log[..ran], log[ran]);
    hide Attempted, Later, Running;
    assert forall k :: 0 <= k < ran ==> log[..ran][k] == log[k];
  }

  /**
   A deletion that ended well is shown as a success and one that failed as a failure with its code. An
   outcome shows a success, or a failed deletion, only where the log has it.
   */
  lemma ResultsAreDeletions(ids: seq<int>, available: bool, log: Log, outcomes: seq<Outcome>, i: nat)
    requires Lawful(ids, available, log) && Answers(ids, log, outcomes) && i < |ids|
    ensures forall a :: Deleted(a, Item(i, ids[i]), None) in log ==> outcomes[i].error.None?
    ensures forall a, code :: Deleted(a, Item(i, ids[i]), Some(code)) in log ==>
                                outcomes[i].error == Some(DeletionFailed(code))
    ensures outcomes[i].error.None? ==> exists a :: Deleted(a, Item(i, ids[i]), None) in log
    ensures outcomes[i].error.Some? && outcomes[i].error.value.DeletionFailed? ==>
              exists a :: Deleted(a, Item(i, ids[i]), Some(outcomes[i].error.value.code)) in log
  {
    var item := Item(i, ids[i]);
    var told := WasAllowed(ids, available, log, Called(item, outcomes[i]));
    hide Lawful, Attempted, Hindered, Unlooked, Told, Repeated;
    forall a | Deleted(a, item, None) in log
      ensures outcomes[i].error.None?
    {
      DeletionIsShown(ids, available, log, told, a, None);
    }
    forall a, code | Deleted(a, item, Some(code)) in log
      ensures outcomes[i].error == Some(DeletionFailed(code))
    {
      DeletionIsShown(ids, available, log, told, a, Some(code));
    }
    if FromDeletion(outcomes[i].error) {
      RanEarlier(log, told, item, outcomes[i].error);
    }
  }

  lemma OneResult(ids: seq<int>, available: bool, log: Log, item: Item, a: int, r: Option<int>, b: int, s: Option<int>)
    requires Lawful(ids, available, log)
    requires Deleted(a, item, r) in log && Deleted(b, item, s) in log
    ensures a == b && r == s
  {
    hide Lawful, Allowed;
    var j: nat :| j < |log| && log[j] == Deleted(a, item, r);
    var k: nat :| k < |log| && log[k] == Deleted(b, item, s);
    if j < k {
      DeletionsDiffer(ids, available, log, j, k);
    } else if k < j {
      DeletionsDiffer(ids, available, log, k, j);
    }
  }

  lemma AttemptedIsShown(ids: seq<int>, available: bool, log: Log, item: Item, error: Option<Fault>)
    requires Genuine(ids, item) && item.aliasId >= 1 && !Repeated(ids, item.index)
    requires Explains(ids, available, log, item, error) && Attempted(log, item.index)
    ensures Ran(log, item, error)
  {
    hide Attempted, Ran, Hindered, Unlooked;
  }

  lemma RanEarlier(log: Log, n: nat, item: Item, error: Option<Fault>)
    requires n <= |log| && Ran(log[..n], item, error)
    ensures Ran(log, item, error)
  {
    assert forall e :: e in log[..n] ==> e in log;
    match error
    case None =>
      var a :| Deleted(a, item, None) in log[..n];
      assert Deleted(a, item, None) in log;
    case Some(DeletionFailed(code)) =>
      var a :| Deleted(a, item, Some(code)) in log[..n];
      assert Deleted(a, item, Some(code)) in log;
  }

  lemma DeletionIsShown(ids: seq<int>, available: bool, log: Log, told: nat, a: int, r: Option<int>)
    requires Lawful(ids, available, log) && told < |log| && log[told].Called?
    requires Deleted(a, log[told].item, r) in log
    ensures log[told].outcome.error == match r { case None => None case Some(code) => Some(DeletionFailed(code)) }
  {
    var item, error := log[told].item, log[told].outcome.error;
    var ran := WasAllowed(ids, available, log, Deleted(a, item, r));
    assert Looked(item, Account(a)) in log;
    ScheduledIsValid(ids, available, log, item, Account(a));
    DeletedBeforeTold(ids, available, log, ran, told);
    assert Allowed(ids, available, log[..told], log[told]);
    assert log[..told][ran] == log[ran];
    hide Lawful, Allowed, Repeated, Explains, Hindered, Told, Later, Running;
    AttemptedIsShown(ids, available, log[..told], item, error);
    RanEarlier(log, told, item, error);
    var s := if error.None? then None else Some(error.value.code);
    var b :| Deleted(b, item, s) in log;
    OneResult(ids, available, log, item, a, r, b, s);
  }

  lemma ScheduledIsValid(ids: seq<int>, available: bool, log: Log, item: Item, found: Lookup)
    requires Lawful(ids, available, log) && Looked(item, found) in log
    ensures Genuine(ids, item) && item.aliasId >= 1 && !Repeated(ids, item.index) && available
  {
    var _ := WasAllowed(ids, available, log, Looked(item, found));
  }

  lemma {:induction false} FailureStays(log: Log, n: nat)
    requires n <= |log|
    ensures FirstFailure(log[..n]).Some? ==> FirstFailure(log) == FirstFailure(log[..n])
    ensures Hindered(log[..n]) ==> Hindered(log)
    decreases |log| - n
  {
    if n < |log| {
      assert log[..n + 1] == log[..n] + [log[n]];
      FirstFailureOneMore(log[..n], log[n]);
      FailureStays(log, n + 1);
    } else {
      assert log[..n] == log;
    }
  }

  /** A panic of a lookup, a group or a report, or an input found abandoned. */
  predicate Fails(e: Entry) {
    || e.Crashed? || e.Choked? || (e.Looked? && e.found == Panic)
    || (e.Called? && e.outcome.error == Some(WorkerStopped))
  }

  /** The batch fails exactly with the first of these. */
  lemma {:induction false} BatchErrorMeans(log: Log)
    ensures FirstFailure(log).None? <==> forall k :: 0 <= k < |log| ==> !Fails(log[k])
    ensures FirstFailure(log).Some? ==>
              exists k :: 0 <= k < |log| && Fails(log[k]) && (forall j :: 0 <= j < k ==> !Fails(log[j]))
                          && FirstFailure(log) == Some(if log[k].Called? then WorkerStopped else Panicked)
  {
    if log != [] {
      var front, m := log[..|log| - 1], |log| - 1;
      BatchErrorMeans(front);
      assert forall k :: 0 <= k < m ==> front[k] == log[k];
      if FirstFailure(front).Some? {
        var k :| 0 <= k < m && Fails(front[k]) && (forall j :: 0 <= j < k ==> !Fails(front[j]))
                 && FirstFailure(front) == Some(if front[k].Called? then WorkerStopped else Panicked);
        assert Fails(log[k]);
      } else if FailureOf(log[m]).Some? {
        assert Fails(log[m]);
      }
    }
  }

  /** Once the caller's context has ended, or anything has panicked, no further alias is looked up. */
  lemma NoLookupAfterAFailure(ids: seq<int>, available: bool, log: Log, j: nat, k: nat)
    requires Lawful(ids, available, log) && j < k < |log| && log[k].Looked?
    ensures !log[j].Interrupted? && !log[j].Crashed? && !log[j].Choked?
    ensures log[j].Looked? ==> !log[j].found.Panic?
  {
    assert Allowed(ids, available, log[..k], log[k]);
    var before := log[..k];
    assert before[..j + 1] == before[..j] + [log[j]];
    FirstFailureOneMore(before[..j], log[j]);
    FailureStays(before, j + 1);
    hide Hindered, FirstFailure, Repeated, Unlooked;
  }

  /** An input is shown as cancelled only before its group has deleted anything, and before the group's end. */
  lemma CancelledBeforeItsGroup(ids: seq<int>, available: bool, log: Log, told: nat, a: int)
    requires Lawful(ids, available, log) && told < |log| && log[told].Called?
    requires log[told].outcome.error == Some(Cancelled)
    requires a >= 1 && Looked(log[told].item, Account(a)) in log
    ensures forall k :: 0 <= k < told ==> !(log[k].Deleted? && log[k].account == a) && !IsEnd(log[k], a)
  {
    var item, before := log[told].item, log[..told];
    assert Allowed(ids, available, before, log[told]);
    ScheduledIsValid(ids, available, log, item, Account(a));
    var looked := WasAllowed(ids, available, log, Looked(item, Account(a)));
    if looked >= told {
      assert log[..looked][..told] == before;
      FailureStays(log[..looked], told);
      assert false;
    }
    assert before[looked] == Looked(item, Account(a));
    hide Lawful, Allowed, Hindered, Repeated, Told;
    var b :| b >= 1 && Looked(item, Account(b)) in before && Running(before, b) && !Begun(before, b);
    assert Looked(item, Account(b)) in log;
    LookedOnce(ids, available, log, item, Account(a), Account(b));
    assert forall k :: 0 <= k < told ==> before[k] == log[k];
  }

  /** An error has its cause in the log, in the input's own group where a group is the cause. */
  lemma ErrorsHaveCauses(ids: seq<int>, available: bool, log: Log, outcomes: seq<Outcome>, i: nat)
    requires Lawful(ids, available, log) && Answers(ids, log, outcomes) && i < |ids|
    ensures outcomes[i].aliasId == ids[i]
    ensures var item, error := Item(i, ids[i]), outcomes[i].error;
            && (error == Some(NotPositive) <==> ids[i] < 1)
            && (error == Some(Duplicate) <==> ids[i] >= 1 && exists j :: 0 <= j < i && ids[j] == ids[i])
            && (error == Some(Cancelled) ==> Hindered(log))
            && (error == Some(Unavailable) ==> !available)
            && (error.Some? && error.value.LookupFailed? ==> Looked(item, Failure(error.value.code)) in log)
            && (error == Some(BadAccount) ==> BadlyOwned(log, item))
            && (error.Some? && error.value.GroupFailed? ==> InRefused(log, item, error.value.code))
            && (error == Some(Panicked) ==> Looked(item, Panic) in log || InCrashed(log, item) || InLost(log, item))
            && (error == Some(WorkerStopped) ==> InLost(log, item))
  {
    var item := Item(i, ids[i]);
    var told := WasAllowed(ids, available, log, Called(item, outcomes[i]));
    FailureStays(log, told);
    hide Hindered, FirstFailure, Told, Attempted, Unlooked, Running, Begun;
  }

  /**
   Nothing is skipped: a new valid ID is looked up unless the batch was cancelled or had failed, and is
   deleted unless that or the end of its own group came first.
   */
  lemma NothingIsSkipped(ids: seq<int>, available: bool, log: Log, outcomes: seq<Outcome>, i: nat)
    requires Lawful(ids, available, log) && Answers(ids, log, outcomes) && i < |ids|
    requires available && ids[i] >= 1 && !Repeated(ids, i)
    ensures outcomes[i].error == Some(Cancelled) ==> Hindered(log)
    ensures outcomes[i].error != Some(Cancelled) ==> exists found :: Looked(Item(i, ids[i]), found) in log
    ensures outcomes[i].error != Some(Cancelled) ==>
              forall a :: a >= 1 && Looked(Item(i, ids[i]), Account(a)) in log && Running(log, a) ==>
                Ran(log, Item(i, ids[i]), outcomes[i].error)
  {
    var item, error := Item(i, ids[i]), outcomes[i].error;
    var told := WasAllowed(ids, available, log, Called(item, outcomes[i]));
    var before := log[..told];
    FailureStays(log, told);
    hide Hindered, Repeated, Told, Attempted, Later;
    if error != Some(Cancelled) {
      if FromDeletion(error) {
        RanEarlier(log, told, item, error);
        var r := if error.None? then None else Some(error.value.code);
        var a :| Deleted(a, item, r) in before;
        var ran := WasAllowed(ids, available, log, Deleted(a, item, r));
        assert Looked(item, Account(a)) in log;
      } else {
        forall a | a >= 1 && Looked(item, Account(a)) in log
          ensures !Running(log, a)
        {
          NotRunning(ids, available, log, told, a);
        }
        assert exists found :: Looked(item, found) in before;
      }
    }
  }

  /** An outcome other than the deletion's own, a cancellation or an early refusal has a cause in the group. */
  lemma NotRunning(ids: seq<int>, available: bool, log: Log, told: nat, a: int)
    requires Lawful(ids, available, log) && told < |log| && log[told].Called?
    requires available && a >= 1 && Looked(log[told].item, Account(a)) in log
    requires !FromDeletion(log[told].outcome.error) && log[told].outcome.error != Some(Cancelled)
    ensures !Running(log, a)
  {
    var item, error := log[told].item, log[told].outcome.error;
    var before := log[..told];
    assert Allowed(ids, available, before, log[told]);
    ScheduledIsValid(ids, available, log, item, Account(a));
    hide Hindered, Repeated, Told, Attempted;
    forall found | Looked(item, found) in before
      ensures found == Account(a)
    {
      LookedOnce(ids, available, log, item, found, Account(a));
    }
    var end: Entry :| end in before && IsEnd(end, a);
    assert end in log;
  }
}
