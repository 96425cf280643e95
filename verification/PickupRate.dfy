/**
 Admission of mailbox pickups: a shared token bucket per alias, or the legacy one-at-a-time
 cooldown, with counters of outstanding permits and a periodic clean-up of idle entries.
 Times are nanoseconds since Go's zero time.
 */
module PickupRate {
  import opened FiniteSets

  const SECOND: int := 1_000_000_000
  const INTERVAL: int := 2 * SECOND
  const CAPACITY: int := 2 * INTERVAL     // sharedPickupBurst intervals of credit
  const ACCOUNT_LIMIT: int := 2
  const MAX_ENTRIES: int := 8192

  datatype Rate = Rate(
    inFlight: bool, readers: int, waiters: int, nextAt: int, waiting: bool, credit: int, refilled: int)

  datatype Permit = Permit(account: int, alias: int, waiting: bool)

  /** `permits` are the release functions that have been handed out and not been called. */
  datatype Limiter = Limiter(
    rates: map<int, Rate>, active: map<int, int>, cleanupAt: int, permits: map<int, Permit>, issued: int)

  datatype Reason = MailboxInflight | MailboxCooldown | AccountConcurrency | MailboxCapacity | MailboxRate

  datatype Verdict = Admitted(permit: int) | Refused(reason: Reason, retry: int) | Released

  function Zero(): Rate { Rate(false, 0, 0, 0, false, 0, 0) }

  function Empty(): Limiter { Limiter(map[], map[], 0, map[], 0) }

  function Min(a: int, b: int): int { if a < b then a else b }

  function CountOf(active: map<int, int>, account: int): int {
    if account in active then active[account] else 0
  }

  predicate Idle(rate: Rate, now: int) {
    !rate.inFlight && !rate.waiting && now >= rate.nextAt
  }

  function Cleaned(rates: map<int, Rate>, now: int): map<int, Rate> {
    map a | a in rates && !Idle(rates[a], now) :: rates[a]
  }

  function CleanUp(l: Limiter, now: int): Limiter {
    if now < l.cleanupAt then l else l.(rates := Cleaned(l.rates, now), cleanupAt := now + SECOND)
  }

  function Admit(l: Limiter, rate: Rate, permit: Permit): (Limiter, Verdict) {
    (Limiter(l.rates[permit.alias := rate], l.active[permit.account := CountOf(l.active, permit.account) + 1],
             l.cleanupAt, l.permits[l.issued := permit], l.issued + 1),
     Admitted(l.issued))
  }

  function Refill(rate: Rate, now: int): Rate {
    if now > rate.refilled
    then rate.(credit := Min(CAPACITY, rate.credit + (now - rate.refilled)), refilled := now)
    else rate
  }

  function Spend(rate: Rate, waiting: bool): Rate {
    var spent := rate.(credit := rate.credit - INTERVAL, nextAt := rate.refilled + CAPACITY - (rate.credit - INTERVAL));
    if waiting then spent.(waiters := rate.waiters + 1, waiting := true)
    else spent.(readers := rate.readers + 1, inFlight := true)
  }

  function FullBucket(now: int): Rate { Zero().(credit := CAPACITY, refilled := now) }

  /** The bucket of an alias; a missing one is full. */
  function Entry(l: Limiter, alias: int, now: int): Rate {
    if alias in l.rates then l.rates[alias] else FullBucket(now)
  }

  /** `server` marks the limiter as deployed; the ideal one to compare it with has no entry cap. */
  function SharedBegin(server: bool, l: Limiter, permit: Permit, now: int): (Limiter, Verdict) {
    var known := permit.alias in l.rates;
    var rate := Refill(Entry(l, permit.alias, now), now);
    if server && !known && |l.rates| >= MAX_ENTRIES then (l, Refused(MailboxCapacity, SECOND))
    else if rate.credit < INTERVAL then (l, Refused(MailboxRate, INTERVAL - rate.credit))
    else Admit(l, Spend(rate, permit.waiting), permit)
  }

  function LegacyBegin(server: bool, l: Limiter, permit: Permit, now: int): (Limiter, Verdict) {
    var known := permit.alias in l.rates;
    var rate := if known then l.rates[permit.alias] else Zero();
    if rate.inFlight then (l, Refused(MailboxInflight, INTERVAL))
    else if now < rate.nextAt then (l, Refused(MailboxCooldown, rate.nextAt - now))
    else if CountOf(l.active, permit.account) >= ACCOUNT_LIMIT then (l, Refused(AccountConcurrency, INTERVAL))
    else if server && !known && |l.rates| >= MAX_ENTRIES then (l, Refused(MailboxCapacity, INTERVAL))
    else Admit(l, Zero().(inFlight := true), permit)
  }

  function Begin(shared: bool, server: bool, l: Limiter, permit: Permit, now: int): (Limiter, Verdict) {
    if shared then SharedBegin(server, l, permit, now) else LegacyBegin(server, l, permit, now)
  }

  function Returned(rate: Rate, waiting: bool): Rate {
    if waiting then rate.(waiters := rate.waiters - 1, waiting := rate.waiters > 1)
    else rate.(readers := rate.readers - 1, inFlight := rate.readers > 1)
  }

  /** Only the legacy mode starts a cooldown when a pickup completes. */
  function Freed(shared: bool, rate: Rate, waiting: bool, finished: int): Rate {
    if shared then Returned(rate, waiting) else Zero().(nextAt := finished + INTERVAL)
  }

  function Decremented(active: map<int, int>, account: int): map<int, int> {
    var count := CountOf(active, account) - 1;
    if count == 0 then active - {account} else active[account := count]
  }

  /** The release function of a permit; a second call does nothing. */
  function Release(shared: bool, l: Limiter, id: int, finished: int): Limiter {
    if id !in l.permits then l
    else
      var permit := l.permits[id];
      var rate := if permit.alias in l.rates then l.rates[permit.alias] else Zero();
      Limiter(l.rates[permit.alias := Freed(shared, rate, permit.waiting, finished)],
              Decremented(l.active, permit.account), l.cleanupAt, l.permits - {id}, l.issued)
  }

  // ---------------------------------------------------------------- permit conservation

  ghost function AliasPermits(permits: map<int, Permit>, alias: int, waiting: bool): set<int> {
    set id | id in permits && permits[id].alias == alias && permits[id].waiting == waiting
  }

  ghost function AccountPermits(permits: map<int, Permit>, account: int): set<int> {
    set id | id in permits && permits[id].account == account
  }

  ghost predicate RateCounts(shared: bool, rate: Rate, readers: nat, waiters: nat) {
    if shared then
      && rate.readers == readers && rate.waiters == waiters
      && (rate.inFlight <==> readers > 0) && (rate.waiting <==> waiters > 0)
      && 0 <= rate.credit <= CAPACITY && rate.nextAt == rate.refilled + CAPACITY - rate.credit
    else
      && readers + waiters <= 1 && !rate.waiting && rate.readers == 0 && rate.waiters == 0
      && (rate.inFlight <==> readers + waiters == 1)
  }

  ghost predicate RateAt(shared: bool, rates: map<int, Rate>, permits: map<int, Permit>, alias: int) {
    var readers, waiters := AliasPermits(permits, alias, false), AliasPermits(permits, alias, true);
    if alias in rates then RateCounts(shared, rates[alias], |readers|, |waiters|) else readers == {} && waiters == {}
  }

  ghost predicate ActiveAt(shared: bool, active: map<int, int>, permits: map<int, Permit>, account: int) {
    && CountOf(active, account) == |AccountPermits(permits, account)|
    && (account in active <==> AccountPermits(permits, account) != {})
    && (!shared ==> CountOf(active, account) <= ACCOUNT_LIMIT)
  }

  /** Every counter is the number of outstanding permits that it stands for. */
  ghost predicate Conserved(shared: bool, l: Limiter) {
    && (forall a: int :: RateAt(shared, l.rates, l.permits, a))
    && (forall c: int :: ActiveAt(shared, l.active, l.permits, c))
    && (forall id :: id in l.permits ==> id < l.issued)
  }

  lemma HolderIsKnown(shared: bool, l: Limiter, id: int)
    requires Conserved(shared, l) && id in l.permits
    ensures l.permits[id].alias in l.rates
    ensures forall now :: !Idle(l.rates[l.permits[id].alias], now)
  {
    var p := l.permits[id];
    assert id in AliasPermits(l.permits, p.alias, p.waiting);
    assert RateAt(shared, l.rates, l.permits, p.alias);
  }

  /** Clean-up drops no entry with an outstanding permit and leaves every counter exact. */
  lemma CleanUpKeepsConserved(shared: bool, l: Limiter, now: int)
    requires Conserved(shared, l)
    ensures Conserved(shared, CleanUp(l, now))
    ensures forall id :: id in l.permits ==> l.permits[id].alias in CleanUp(l, now).rates
    ensures |CleanUp(l, now).rates| <= |l.rates|
  {
    var l' := CleanUp(l, now);
    SubsetSize(l'.rates.Keys, l.rates.Keys);
    forall id | id in l.permits
      ensures l.permits[id].alias in l'.rates
    {
      HolderIsKnown(shared, l, id);
    }
    forall a: int
      ensures RateAt(shared, l'.rates, l'.permits, a)
    {
      assert RateAt(shared, l.rates, l.permits, a);
    }
    forall c: int
      ensures ActiveAt(shared, l'.active, l'.permits, c)
    {
      assert ActiveAt(shared, l.active, l.permits, c);
    }
  }

  lemma AdmitKeepsRateAt(
      shared: bool, rates: map<int, Rate>, permits: map<int, Permit>, id: int, p: Permit, rate: Rate, a: int)
    requires RateAt(shared, rates, permits, a) && id !in permits
    requires RateCounts(shared, rate,
                        |AliasPermits(permits, p.alias, false)| + (if p.waiting then 0 else 1),
                        |AliasPermits(permits, p.alias, true)| + (if p.waiting then 1 else 0))
    ensures RateAt(shared, rates[p.alias := rate], permits[id := p], a)
  {
    hide RateCounts;
    var after := permits[id := p];
    if a == p.alias {
      assert AliasPermits(after, a, p.waiting) == AliasPermits(permits, a, p.waiting) + {id};
      assert AliasPermits(after, a, !p.waiting) == AliasPermits(permits, a, !p.waiting);
    } else {
      assert AliasPermits(after, a, true) == AliasPermits(permits, a, true);
      assert AliasPermits(after, a, false) == AliasPermits(permits, a, false);
    }
  }

  lemma AdmitKeepsActiveAt(
      shared: bool, active: map<int, int>, permits: map<int, Permit>, id: int, p: Permit, c: int)
    requires ActiveAt(shared, active, permits, c) && id !in permits
    requires !shared ==> CountOf(active, p.account) < ACCOUNT_LIMIT
    ensures ActiveAt(shared, active[p.account := CountOf(active, p.account) + 1], permits[id := p], c)
  {
    assert AccountPermits(permits[id := p], c) == AccountPermits(permits, c) + (if c == p.account then {id} else {});
    assert id !in AccountPermits(permits, c);
  }

  lemma AdmitKeepsConserved(shared: bool, l: Limiter, rate: Rate, p: Permit)
    requires Conserved(shared, l)
    requires !shared ==> CountOf(l.active, p.account) < ACCOUNT_LIMIT
    requires RateCounts(shared, rate,
                        |AliasPermits(l.permits, p.alias, false)| + (if p.waiting then 0 else 1),
                        |AliasPermits(l.permits, p.alias, true)| + (if p.waiting then 1 else 0))
    ensures Conserved(shared, Admit(l, rate, p).0)
  {
    hide RateAt, ActiveAt, RateCounts;
    var l' := Admit(l, rate, p).0;
    forall a: int
      ensures RateAt(shared, l'.rates, l'.permits, a)
    {
      AdmitKeepsRateAt(shared, l.rates, l.permits, l.issued, p, rate, a);
    }
    forall c: int
      ensures ActiveAt(shared, l'.active, l'.permits, c)
    {
      AdmitKeepsActiveAt(shared, l.active, l.permits, l.issued, p, c);
    }
  }

  /** Admission and refusal keep every counter equal to the outstanding permits, in both modes. */
  lemma BeginKeepsConserved(shared: bool, server: bool, l: Limiter, p: Permit, now: int)
    requires Conserved(shared, l)
    ensures Conserved(shared, Begin(shared, server, l, p, now).0)
    ensures server && |l.rates| <= MAX_ENTRIES ==> |Begin(shared, server, l, p, now).0.rates| <= MAX_ENTRIES
  {
    hide ActiveAt;
    assert RateAt(shared, l.rates, l.permits, p.alias);
    if Begin(shared, server, l, p, now).1.Admitted? {
      if shared {
        AdmitKeepsConserved(shared, l, Spend(Refill(Entry(l, p.alias, now), now), p.waiting), p);
      } else {
        AdmitKeepsConserved(shared, l, Zero().(inFlight := true), p);
      }
    }
  }

  lemma DropKeepsRateAt(
      shared: bool, rates: map<int, Rate>, permits: map<int, Permit>, id: int, finished: int, a: int)
    requires RateAt(shared, rates, permits, a) && id in permits && permits[id].alias in rates
    ensures RateAt(shared,
                   rates[permits[id].alias := Freed(shared, rates[permits[id].alias], permits[id].waiting, finished)],
                   permits - {id}, a)
  {
    var p, after := permits[id], permits - {id};
    if a == p.alias {
      assert id in AliasPermits(permits, a, p.waiting);
      assert AliasPermits(after, a, p.waiting) == AliasPermits(permits, a, p.waiting) - {id};
      assert AliasPermits(after, a, !p.waiting) == AliasPermits(permits, a, !p.waiting);
    } else {
      hide RateCounts;
      assert AliasPermits(after, a, true) == AliasPermits(permits, a, true);
      assert AliasPermits(after, a, false) == AliasPermits(permits, a, false);
    }
  }

  lemma DropKeepsActiveAt(shared: bool, active: map<int, int>, permits: map<int, Permit>, id: int, c: int)
    requires ActiveAt(shared, active, permits, c) && id in permits
    ensures ActiveAt(shared, Decremented(active, permits[id].account), permits - {id}, c)
  {
    var held := AccountPermits(permits, c);
    if c == permits[id].account {
      assert id in held;
      assert AccountPermits(permits - {id}, c) == held - {id};
      if |held| == 1 { OneMoreOrLess(held, id); }
    } else {
      assert AccountPermits(permits - {id}, c) == held;
    }
  }

  /** Releasing a permit, once or again, keeps every counter equal to the outstanding permits. */
  lemma ReleaseKeepsConserved(shared: bool, l: Limiter, id: int, finished: int)
    requires Conserved(shared, l)
    ensures Conserved(shared, Release(shared, l, id, finished))
    ensures |Release(shared, l, id, finished).rates| == |l.rates|
  {
    if id in l.permits {
      HolderIsKnown(shared, l, id);
      hide RateAt, ActiveAt;
      var l' := Release(shared, l, id, finished);
      forall a: int
        ensures RateAt(shared, l'.rates, l'.permits, a)
      {
        DropKeepsRateAt(shared, l.rates, l.permits, id, finished, a);
      }
      forall c: int
        ensures ActiveAt(shared, l'.active, l'.permits, c)
      {
        DropKeepsActiveAt(shared, l.active, l.permits, id, c);
      }
      assert l'.rates.Keys == l.rates.Keys;
    }
  }

  // ---------------------------------------------------------------- whole runs

  datatype Op = BeginOp(permit: Permit, at: nat) | ReleaseOp(id: int, at: nat)

  /** The ideal limiter never forgets an entry and has no cap. */
  function Step(shared: bool, server: bool, l: Limiter, op: Op): (Limiter, Verdict) {
    match op
    case BeginOp(permit, at) => Begin(shared, server, if server then CleanUp(l, at) else l, permit, at)
    case ReleaseOp(id, at) => (Release(shared, l, id, at), Released)
  }

  function Execute(shared: bool, server: bool, ops: seq<Op>): (Limiter, seq<Verdict>) {
    if ops == [] then (Empty(), [])
    else
      var (l, verdicts) := Execute(shared, server, ops[..|ops| - 1]);
      var (next, verdict) := Step(shared, server, l, ops[|ops| - 1]);
      (next, verdicts + [verdict])
  }

  lemma StepKeepsConserved(shared: bool, server: bool, l: Limiter, op: Op)
    requires Conserved(shared, l)
    ensures Conserved(shared, Step(shared, server, l, op).0)
    ensures server && |l.rates| <= MAX_ENTRIES ==> |Step(shared, server, l, op).0.rates| <= MAX_ENTRIES
  {
    hide Conserved, CleanUp, Begin, Release;
    match op
    case BeginOp(permit, at) =>
      CleanUpKeepsConserved(shared, l, at);
      BeginKeepsConserved(shared, server, if server then CleanUp(l, at) else l, permit, at);
    case ReleaseOp(id, at) =>
      ReleaseKeepsConserved(shared, l, id, at);
  }

  /** In every run, whatever the clock does, all counters are exact and the server's map stays within its cap. */
  lemma {:induction false} RunKeepsConserved(shared: bool, server: bool, ops: seq<Op>)
    ensures Conserved(shared, Execute(shared, server, ops).0)
    ensures server ==> |Execute(shared, server, ops).0.rates| <= MAX_ENTRIES == 8192
  {
    if ops == [] {
      forall a: int ensures RateAt(shared, map[], map[], a) {
        assert AliasPermits(map[], a, false) == {} && AliasPermits(map[], a, true) == {};
      }
      forall c: int ensures ActiveAt(shared, map[], map[], c) {
        assert AccountPermits(map[], c) == {};
      }
    } else {
      RunKeepsConserved(shared, server, ops[..|ops| - 1]);
      StepKeepsConserved(shared, server, Execute(shared, server, ops[..|ops| - 1]).0, ops[|ops| - 1]);
    }
  }

  /** Legacy mode never has two permits of one alias or three of one account outstanding. */
  lemma LegacyLimits(server: bool, ops: seq<Op>, alias: int, account: int)
    ensures var permits := Execute(false, server, ops).0.permits;
            && |AliasPermits(permits, alias, false)| + |AliasPermits(permits, alias, true)| <= 1
            && |AccountPermits(permits, account)| <= 2
  {
    RunKeepsConserved(false, server, ops);
    var l := Execute(false, server, ops).0;
    assert RateAt(false, l.rates, l.permits, alias) && ActiveAt(false, l.active, l.permits, account);
  }

  // ---------------------------------------------------------------- clock readings

  /** Releases read the clock only in legacy mode. */
  predicate Reads(shared: bool, op: Op) { op.BeginOp? || !shared }

  /** The latest clock reading of a run. A reading is taken before the mutex, so it need not be the last one. */
  function High(shared: bool, ops: seq<Op>): nat {
    if ops == [] then 0
    else
      var high, op := High(shared, ops[..|ops| - 1]), ops[|ops| - 1];
      if Reads(shared, op) && op.at > high then op.at else high
  }

  /** The readings reach the mutex in the order of the clock. */
  predicate Ordered(shared: bool, ops: seq<Op>) {
    forall i :: 0 <= i < |ops| && Reads(shared, ops[i]) ==> ops[i].at >= High(shared, ops[..i])
  }

  lemma OrderedFront(shared: bool, ops: seq<Op>)
    requires Ordered(shared, ops) && ops != []
    ensures Ordered(shared, ops[..|ops| - 1])
    ensures var op := ops[|ops| - 1];
            High(shared, ops) == if Reads(shared, op) then op.at else High(shared, ops[..|ops| - 1])
  {
    var front := ops[..|ops| - 1];
    forall i | 0 <= i < |front| && Reads(shared, front[i])
      ensures front[i].at >= High(shared, front[..i])
    {
      assert front[..i] == ops[..i] && front[i] == ops[i];
    }
  }

  /** An admission: its clock reading, and the latest reading by then. */
  datatype Stamp = Stamp(at: int, high: int)

  function Logged(op: Op, verdict: Verdict, alias: int, high: int): seq<Stamp> {
    if op.BeginOp? && op.permit.alias == alias && verdict.Admitted? then [Stamp(op.at, high)] else []
  }

  function Completed(l: Limiter, op: Op, alias: int): seq<int> {
    if op.ReleaseOp? && op.id in l.permits && l.permits[op.id].alias == alias then [op.at] else []
  }

  /** When the pickups of an alias were admitted in a run. */
  function Admissions(shared: bool, server: bool, ops: seq<Op>, alias: int): seq<Stamp> {
    if ops == [] then []
    else
      var before, op := ops[..|ops| - 1], ops[|ops| - 1];
      Admissions(shared, server, before, alias)
      + Logged(op, Step(shared, server, Execute(shared, server, before).0, op).1, alias, High(shared, ops))
  }

  /** When the pickups of an alias completed in a run. */
  function Completions(shared: bool, server: bool, ops: seq<Op>, alias: int): seq<int> {
    if ops == [] then []
    else
      var before, op := ops[..|ops| - 1], ops[|ops| - 1];
      Completions(shared, server, before, alias) + Completed(Execute(shared, server, before).0, op, alias)
  }

  // ---------------------------------------------------------------- admission rate

  /** How far behind the latest reading the admissions after the i-th were, in all. */
  function Lateness(stamps: seq<Stamp>, i: nat): int {
    if |stamps| <= i + 1 then 0
    else Lateness(stamps[..|stamps| - 1], i) + stamps[|stamps| - 1].high - stamps[|stamps| - 1].at
  }

  lemma LatenessOneMore(stamps: seq<Stamp>, x: Stamp, i: nat)
    requires i <= |stamps|
    ensures Lateness(stamps + [x], i) == if i == |stamps| then 0 else Lateness(stamps, i) + x.high - x.at
  {
    assert (stamps + [x])[..|stamps|] == stamps;
  }

  predicate SpreadAt(stamps: seq<Stamp>, i: nat, j: nat)
    requires i <= j < |stamps|
  {
    (j - i + 1) * INTERVAL <= CAPACITY + stamps[j].high - stamps[i].at + Lateness(stamps[..j + 1], i)
  }

  predicate Spread(stamps: seq<Stamp>) {
    forall i, j :: 0 <= i <= j < |stamps| ==> SpreadAt(stamps, i, j)
  }

  /** What a bucket still owes to the admissions made so far; `slack` is granted. */
  predicate OwedBy(rate: Rate, stamps: seq<Stamp>, slack: int) {
    forall i :: 0 <= i < |stamps| ==>
      (|stamps| - i) * INTERVAL + rate.credit <= CAPACITY + rate.refilled - stamps[i].at + Lateness(stamps, i) + slack
  }

  predicate Owed(rates: map<int, Rate>, alias: int, stamps: seq<Stamp>, high: int) {
    if alias in rates then rates[alias].refilled <= high && OwedBy(rates[alias], stamps, 0)
    else
      forall i :: 0 <= i < |stamps| ==> (|stamps| - i) * INTERVAL <= high - stamps[i].at + Lateness(stamps, i)
  }

  lemma CleanUpKeepsOwed(l: Limiter, alias: int, stamps: seq<Stamp>, high: int, now: int)
    requires Conserved(true, l) && Owed(l.rates, alias, stamps, high) && now <= high
    ensures Owed(CleanUp(l, now).rates, alias, stamps, high)
  {
    assert RateAt(true, l.rates, l.permits, alias);
  }

  lemma SpendKeepsOwed(rate: Rate, waiting: bool, stamps: seq<Stamp>, now: int, high: int)
    requires now <= high && OwedBy(rate, stamps, high - now) && rate.credit <= CAPACITY
    ensures OwedBy(Spend(Refill(rate, now), waiting), stamps + [Stamp(now, high)], 0)
  {
    var x := Stamp(now, high);
    var after := Spend(Refill(rate, now), waiting);
    hide Lateness;
    assert OwedBy(Refill(rate, now), stamps, high - now);
    forall i | 0 <= i <= |stamps|
      ensures (|stamps| + 1 - i) * INTERVAL + after.credit
              <= CAPACITY + after.refilled - (stamps + [x])[i].at + Lateness(stamps + [x], i)
    {
      LatenessOneMore(stamps, x, i);
    }
  }

  lemma BeginKeepsOwed(server: bool, l: Limiter, p: Permit, alias: int, stamps: seq<Stamp>, now: int, high: int)
    requires Conserved(true, l) && Owed(l.rates, alias, stamps, high) && now <= high
    ensures var (l', verdict) := SharedBegin(server, l, p, now);
            Owed(l'.rates, alias,
                 stamps + (if p.alias == alias && verdict.Admitted? then [Stamp(now, high)] else []), high)
  {
    assert stamps + [] == stamps;
    if p.alias == alias {
      var rate := Entry(l, alias, now);
      assert RateAt(true, l.rates, l.permits, alias);
      assert OwedBy(rate, stamps, high - now);
      SpendKeepsOwed(rate, p.waiting, stamps, now, high);
    }
    hide Conserved, RateAt, OwedBy, Lateness;
  }

  lemma ReleaseKeepsOwed(l: Limiter, id: int, at: int, alias: int, stamps: seq<Stamp>, high: int)
    requires Conserved(true, l) && Owed(l.rates, alias, stamps, high)
    ensures Owed(Release(true, l, id, at).rates, alias, stamps, high)
  {
    if id in l.permits { HolderIsKnown(true, l, id); }
    hide Lateness;
  }

  /** An entry owes at least what the spread of its admissions asks for. */
  lemma OwedMeansSpread(l: Limiter, alias: int, stamps: seq<Stamp>, x: Stamp)
    requires Conserved(true, l) && Owed(l.rates, alias, stamps + [x], x.high) && Spread(stamps)
    ensures Spread(stamps + [x])
  {
    var all := stamps + [x];
    assert RateAt(true, l.rates, l.permits, alias);
    hide Lateness;
    forall i, j | 0 <= i <= j < |all|
      ensures SpreadAt(all, i, j)
    {
      if j < |stamps| {
        assert SpreadAt(stamps, i, j) && all[..j + 1] == stamps[..j + 1];
      } else {
        assert all[..j + 1] == all;
      }
    }
  }

  lemma OwedLater(rates: map<int, Rate>, alias: int, stamps: seq<Stamp>, high: int, later: int)
    requires Owed(rates, alias, stamps, high) && high <= later
    ensures Owed(rates, alias, stamps, later)
  {
    hide Lateness;
  }

  lemma StepKeepsOwed(server: bool, l: Limiter, op: Op, alias: int, stamps: seq<Stamp>, high: int)
    requires Conserved(true, l) && Owed(l.rates, alias, stamps, high) && Spread(stamps)
    requires op.BeginOp? ==> op.at <= high
    ensures var (l', verdict) := Step(true, server, l, op);
            var after := stamps + Logged(op, verdict, alias, high);
            Owed(l'.rates, alias, after, high) && Spread(after)
  {
    StepKeepsConserved(true, server, l, op);
    assert stamps + [] == stamps;
    match op
    case BeginOp(p, at) =>
      CleanUpKeepsOwed(l, alias, stamps, high, at);
      CleanUpKeepsConserved(true, l, at);
      BeginKeepsOwed(server, if server then CleanUp(l, at) else l, p, alias, stamps, at, high);
      hide Conserved, Owed, Spread, SharedBegin, CleanUp;
      if Logged(op, Step(true, server, l, op).1, alias, high) != [] {
        OwedMeansSpread(Step(true, server, l, op).0, alias, stamps, Stamp(at, high));
      }
    case ReleaseOp(id, at) =>
      ReleaseKeepsOwed(l, id, at, alias, stamps, high);
  }

  lemma {:induction false} RunKeepsOwed(server: bool, ops: seq<Op>, alias: int)
    ensures Owed(Execute(true, server, ops).0.rates, alias, Admissions(true, server, ops, alias), High(true, ops))
    ensures Spread(Admissions(true, server, ops, alias))
  {
    if ops != [] {
      var before, op := ops[..|ops| - 1], ops[|ops| - 1];
      var l, stamps := Execute(true, server, before).0, Admissions(true, server, before, alias);
      RunKeepsOwed(server, before, alias);
      RunKeepsConserved(true, server, before);
      OwedLater(l.rates, alias, stamps, High(true, before), High(true, ops));
      StepKeepsOwed(server, l, op, alias, stamps, High(true, ops));
      hide Conserved, Step, Spread, Logged, Owed;
    }
  }

  /**
   In shared mode, in whatever order clock readings reach the mutex, admissions i to j of an alias take
   (j - i + 1) intervals of credit, and the bucket has two of them, the time from reading i to the latest
   reading by admission j, and what admissions i + 1 to j were late. Idle buckets are forgotten on the way.
   */
  lemma AdmissionRateInAnyOrder(server: bool, ops: seq<Op>, alias: int, i: nat, j: nat)
    requires i <= j < |Admissions(true, server, ops, alias)|
    ensures var t := Admissions(true, server, ops, alias);
            (j - i + 1) * INTERVAL <= CAPACITY + t[j].high - t[i].at + Lateness(t[..j + 1], i)
  {
    RunKeepsOwed(server, ops, alias);
    assert SpreadAt(Admissions(true, server, ops, alias), i, j);
    hide Spread, Owed, Lateness, Admissions;
  }

  predicate OnTime(stamps: seq<Stamp>, high: int) {
    && (forall i :: 0 <= i < |stamps| ==> stamps[i].at == stamps[i].high <= high)
    && (forall i, j :: 0 <= i <= j < |stamps| ==> stamps[i].at <= stamps[j].at)
  }

  lemma OnTimeOneMore(stamps: seq<Stamp>, high: int, later: int)
    requires OnTime(stamps, high) && high <= later
    ensures OnTime(stamps, later) && OnTime(stamps + [Stamp(later, later)], later)
  {
  }

  lemma {:induction false} OrderedIsOnTime(shared: bool, server: bool, ops: seq<Op>, alias: int)
    requires Ordered(shared, ops)
    ensures OnTime(Admissions(shared, server, ops, alias), High(shared, ops))
  {
    if ops != [] {
      var before, op := ops[..|ops| - 1], ops[|ops| - 1];
      OrderedFront(shared, ops);
      OrderedIsOnTime(shared, server, before, alias);
      assert Reads(shared, op) ==> op.at >= High(shared, before);
      hide Step, Execute, OnTime, Ordered;
      OnTimeOneMore(Admissions(shared, server, before, alias), High(shared, before), High(shared, ops));
      assert Admissions(shared, server, before, alias) + [] == Admissions(shared, server, before, alias);
    }
  }

  lemma {:induction false} NoLateness(stamps: seq<Stamp>, high: int, i: nat)
    requires OnTime(stamps, high)
    ensures Lateness(stamps, i) == 0
  {
    if |stamps| > i + 1 { NoLateness(stamps[..|stamps| - 1], high, i); }
  }

  /** With readings in order, an interval of length W admits at most 2 + W / 2 s pickups of an alias. */
  lemma AdmissionRateIsBounded(server: bool, ops: seq<Op>, alias: int, i: nat, j: nat)
    requires Ordered(true, ops) && i <= j < |Admissions(true, server, ops, alias)|
    ensures var t := Admissions(true, server, ops, alias);
            t[i].at <= t[j].at && j - i + 1 <= 2 + (t[j].at - t[i].at) / INTERVAL
  {
    var t := Admissions(true, server, ops, alias);
    AdmissionRateInAnyOrder(server, ops, alias, i, j);
    OrderedIsOnTime(true, server, ops, alias);
    NoLateness(t[..j + 1], High(true, ops), i);
    assert t[i].at <= t[j].at && t[j].at == t[j].high;
    RateOf(j - i + 1, t[j].at - t[i].at);
    hide *;
  }

  lemma RateOf(n: int, width: int)
    requires n * INTERVAL <= CAPACITY + width
    ensures n <= 2 + width / INTERVAL
  {
  }

  // ---------------------------------------------------------------- legacy cooldown

  /** Every completion of the alias is over by at least the cooldown, unless its entry remembers it. */
  predicate Cooled(rates: map<int, Rate>, alias: int, completions: seq<int>, high: int) {
    forall i :: 0 <= i < |completions| ==>
      || completions[i] + INTERVAL <= high
      || (alias in rates && !rates[alias].inFlight && completions[i] + INTERVAL <= rates[alias].nextAt)
  }

  lemma BeginKeepsCooled(server: bool, l: Limiter, p: Permit, alias: int, completions: seq<int>, now: int, high: int)
    requires Cooled(l.rates, alias, completions, high) && now <= high
    ensures Cooled(LegacyBegin(server, l, p, now).0.rates, alias, completions, high)
    ensures p.alias == alias && LegacyBegin(server, l, p, now).1.Admitted? ==>
              forall i :: 0 <= i < |completions| ==> completions[i] + INTERVAL <= high
  {
  }

  lemma ReleaseKeepsCooled(l: Limiter, id: int, at: nat, alias: int, completions: seq<int>, high: int)
    requires Conserved(false, l) && Cooled(l.rates, alias, completions, high)
    ensures Cooled(Release(false, l, id, at).rates, alias, completions + Completed(l, ReleaseOp(id, at), alias), high)
  {
    if id in l.permits {
      var p := l.permits[id];
      HolderIsKnown(false, l, id);
      assert RateAt(false, l.rates, l.permits, p.alias);
      assert !Idle(l.rates[p.alias], l.rates[p.alias].nextAt);
    }
    hide Conserved, AliasPermits;
  }

  lemma StepKeepsCooled(server: bool, l: Limiter, op: Op, alias: int, completions: seq<int>, high: int)
    requires Conserved(false, l) && Cooled(l.rates, alias, completions, high) && op.at <= high
    ensures var (l', verdict) := Step(false, server, l, op);
            && Cooled(l'.rates, alias, completions + Completed(l, op, alias), high)
            && (Logged(op, verdict, alias, high) != [] ==>
                  forall i :: 0 <= i < |completions| ==> completions[i] + INTERVAL <= high)
  {
    assert completions + [] == completions;
    match op
    case BeginOp(p, at) =>
      BeginKeepsCooled(server, if server then CleanUp(l, at) else l, p, alias, completions, at, high);
      hide Conserved, LegacyBegin;
    case ReleaseOp(id, at) =>
      ReleaseKeepsCooled(l, id, at, alias, completions, high);
      hide Conserved, Release, Cooled;
  }

  lemma {:induction false} RunKeepsCooled(server: bool, ops: seq<Op>, alias: int)
    ensures Cooled(Execute(false, server, ops).0.rates, alias, Completions(false, server, ops, alias), High(false, ops))
  {
    if ops != [] {
      var before, op := ops[..|ops| - 1], ops[|ops| - 1];
      RunKeepsCooled(server, before, alias);
      RunKeepsConserved(false, server, before);
      StepKeepsCooled(server, Execute(false, server, before).0, op, alias, Completions(false, server, before, alias),
                      High(false, ops));
      hide Conserved, Step;
    }
  }

  /**
   A legacy pickup starts only when, by the latest reading of the clock, every earlier pickup of its alias
   completed 2 s before; by its own reading, if the readings are in order.
   */
  lemma LegacyCooldown(server: bool, ops: seq<Op>, op: Op)
    requires op.BeginOp? && Step(false, server, Execute(false, server, ops).0, op).1.Admitted?
    ensures forall f <- Completions(false, server, ops, op.permit.alias) :: f + 2 * SECOND <= High(false, ops + [op])
    ensures Ordered(false, ops + [op]) ==> High(false, ops + [op]) == op.at
  {
    var l, all := Execute(false, server, ops).0, ops + [op];
    assert all[..|ops|] == ops && all[|ops|] == op;
    RunKeepsCooled(server, ops, op.permit.alias);
    RunKeepsConserved(false, server, ops);
    StepKeepsCooled(server, l, op, op.permit.alias, Completions(false, server, ops, op.permit.alias), High(false, all));
    if Ordered(false, all) { OrderedFront(false, all); }
    hide Conserved, Step, Completions, Ordered;
  }

  // ---------------------------------------------------------------- which pickups are admitted

  /** The bucket has what admission i and those after it have left. */
  predicate SpentAt(rate: Rate, stamps: seq<Stamp>, i: nat)
    requires i < |stamps|
  {
    (|stamps| - i) * INTERVAL + rate.credit == CAPACITY + rate.refilled - stamps[i].at
  }

  predicate Spent(rates: map<int, Rate>, alias: int, stamps: seq<Stamp>) {
    alias in rates ==> exists i :: 0 <= i < |stamps| && SpentAt(rates[alias], stamps, i)
  }

  lemma SpendIsRecorded(rate: Rate, known: bool, waiting: bool, stamps: seq<Stamp>, x: Stamp)
    requires if known then exists i :: 0 <= i < |stamps| && SpentAt(rate, stamps, i) else rate == FullBucket(x.at)
    ensures exists i :: 0 <= i <= |stamps| && SpentAt(Spend(Refill(rate, x.at), waiting), stamps + [x], i)
  {
    var after := Spend(Refill(rate, x.at), waiting);
    if known && (x.at <= rate.refilled || rate.credit + (x.at - rate.refilled) <= CAPACITY) {
      var i :| 0 <= i < |stamps| && SpentAt(rate, stamps, i);
      assert SpentAt(after, stamps + [x], i);
    } else {
      assert SpentAt(after, stamps + [x], |stamps|);
    }
  }

  lemma StepKeepsSpent(server: bool, l: Limiter, op: Op, alias: int, stamps: seq<Stamp>, high: int)
    requires Conserved(true, l) && Spent(l.rates, alias, stamps)
    ensures var (l', verdict) := Step(true, server, l, op);
            Spent(l'.rates, alias, stamps + Logged(op, verdict, alias, high))
  {
    assert stamps + [] == stamps;
    match op
    case BeginOp(p, at) =>
      var c := if server then CleanUp(l, at) else l;
      hide Conserved, SpentAt, Spend, Refill, CleanUp;
      assert Spent(c.rates, alias, stamps) by { CleanedIsKept(l, at, alias); }
      if p.alias == alias {
        SpendIsRecorded(Entry(c, alias, at), alias in c.rates, p.waiting, stamps, Stamp(at, high));
      }
    case ReleaseOp(id, at) =>
      if id in l.permits { HolderIsKnown(true, l, id); }
      if alias in l.rates {
        var i :| 0 <= i < |stamps| && SpentAt(l.rates[alias], stamps, i);
        assert SpentAt(Release(true, l, id, at).rates[alias], stamps, i);
      }
      hide Conserved;
  }

  lemma CleanedIsKept(l: Limiter, now: int, alias: int)
    ensures alias in CleanUp(l, now).rates ==> alias in l.rates && CleanUp(l, now).rates[alias] == l.rates[alias]
  {
  }

  lemma {:induction false} RunKeepsSpent(server: bool, ops: seq<Op>, alias: int)
    ensures Spent(Execute(true, server, ops).0.rates, alias, Admissions(true, server, ops, alias))
  {
    if ops != [] {
      var before := ops[..|ops| - 1];
      RunKeepsSpent(server, before, alias);
      RunKeepsConserved(true, server, before);
      StepKeepsSpent(server, Execute(true, server, before).0, ops[|ops| - 1], alias,
                     Admissions(true, server, before, alias), High(true, ops));
      hide Conserved, Step, Spent, Logged;
    }
  }

  /** The verdict on a bucket, read off the admissions that it has paid for. */
  lemma VerdictOnBucket(rate: Rate, stamps: seq<Stamp>, now: int, i: nat)
    requires rate.refilled <= now && rate.credit <= CAPACITY && OwedBy(rate, stamps, 0)
    requires i < |stamps| && SpentAt(rate, stamps, i)
    requires forall k :: 0 <= k < |stamps| ==> Lateness(stamps, k) == 0
    ensures var n, credit := |stamps|, Refill(rate, now).credit;
            && (credit >= INTERVAL <==>
                  forall k :: 0 <= k < n ==> (n - k + 1) * INTERVAL <= CAPACITY + now - stamps[k].at)
            && (credit < INTERVAL ==>
                  && (forall k :: 0 <= k < n ==>
                        (n - k + 1) * INTERVAL <= CAPACITY + now + (INTERVAL - credit) - stamps[k].at)
                  && (n - i + 1) * INTERVAL == CAPACITY + now + (INTERVAL - credit) - stamps[i].at)
  {
    hide Lateness;
  }

  /** Every earlier admission, with those after it, leaves credit for one more at that time. */
  predicate Affordable(t: seq<Stamp>, at: int) {
    forall i :: 0 <= i < |t| ==> (|t| - i + 1) * INTERVAL <= CAPACITY + at - t[i].at
  }

  /**
   A full map refuses for a second. Otherwise a pickup that the earlier admissions can afford is admitted, and any
   other is told the shortest time after which they can.
   */
  ghost predicate SharedVerdictFor(verdict: Verdict, crowded: bool, t: seq<Stamp>, now: int) {
    if crowded then verdict == Refused(MailboxCapacity, SECOND)
    else if Affordable(t, now) then verdict.Admitted?
    else
      && verdict.Refused? && verdict.reason == MailboxRate && verdict.retry > 0
      && Affordable(t, now + verdict.retry)
      && exists i :: 0 <= i < |t| && (|t| - i + 1) * INTERVAL == CAPACITY + now + verdict.retry - t[i].at
  }

  /**
   With readings in order, a shared pickup, waiting or not, is refused only for want of space or for want of credit,
   as the admissions before it tell.
   */
  lemma SharedVerdict(server: bool, ops: seq<Op>, op: Op)
    requires op.BeginOp? && Ordered(true, ops + [op])
    ensures var l, alias := Execute(true, server, ops).0, op.permit.alias;
            var kept := CleanUp(l, op.at).rates;
            SharedVerdictFor(Step(true, server, l, op).1, server && alias !in kept && |kept| >= 8192,
                             Admissions(true, server, ops, alias), op.at)
  {
    hide *;
    var l, alias := Execute(true, server, ops).0, op.permit.alias;
    var t := Admissions(true, server, ops, alias);
    BooksOf(server, ops, op);
    BucketsAt(server, l, alias, t, op.at);
    VerdictOnMap(server, if server then CleanUp(l, op.at) else l, op.permit, t, op.at);
    StepIsBegin(server, l, op);
  }

  lemma BooksOf(server: bool, ops: seq<Op>, op: Op)
    requires op.BeginOp? && Ordered(true, ops + [op])
    ensures var l, alias := Execute(true, server, ops).0, op.permit.alias;
            var t := Admissions(true, server, ops, alias);
            && Conserved(true, l) && Owed(l.rates, alias, t, op.at) && Spent(l.rates, alias, t)
            && forall k :: 0 <= k < |t| ==> Lateness(t, k) == 0
  {
    var l, alias := Execute(true, server, ops).0, op.permit.alias;
    var t := Admissions(true, server, ops, alias);
    assert (ops + [op])[..|ops|] == ops;
    OrderedFront(true, ops + [op]);
    OrderedIsOnTime(true, server, ops, alias);
    RunKeepsOwed(server, ops, alias);
    RunKeepsSpent(server, ops, alias);
    RunKeepsConserved(true, server, ops);
    hide *;
    OwedLater(l.rates, alias, t, High(true, ops), op.at);
    forall k | 0 <= k < |t| ensures Lateness(t, k) == 0 { NoLateness(t, High(true, ops), k); }
  }

  /** A pickup that was refused for its alias finds room in the map when it comes back. */
  lemma RoomForTheKnown(l: Limiter, alias: int, now: int)
    requires alias in l.rates && |l.rates| <= MAX_ENTRIES == 8192
    ensures alias in CleanUp(l, now).rates || |CleanUp(l, now).rates| < 8192
  {
    var kept := CleanUp(l, now).rates.Keys;
    if alias !in kept { SubsetSize(kept, l.rates.Keys - {alias}); }
  }

  /**
   The time quoted to a shared pickup that is refused for want of credit is exact: if nothing happens in between, it
   is admitted from then on and at no earlier time.
   */
  lemma SharedRetryIsExact(server: bool, ops: seq<Op>, op: Op, again: Op)
    requires op.BeginOp? && again.BeginOp? && again.permit.alias == op.permit.alias
    requires Ordered(true, ops + [op] + [again])
    requires var verdict := Step(true, server, Execute(true, server, ops).0, op).1;
             verdict.Refused? && verdict.reason == MailboxRate
    ensures var retry := Step(true, server, Execute(true, server, ops).0, op).1.retry;
            && retry > 0
            && (Step(true, server, Execute(true, server, ops + [op]).0, again).1.Admitted? <==>
                  again.at >= op.at + retry)
  {
    hide *;
    var l, alias := Execute(true, server, ops).0, op.permit.alias;
    var (after, verdict) := Step(true, server, l, op);
    var t := Admissions(true, server, ops, alias);
    assert (ops + [op] + [again])[..|ops + [op]|] == ops + [op];
    OrderedFront(true, ops + [op] + [again]);
    SharedVerdict(server, ops, op);
    SharedVerdict(server, ops + [op], again);
    OneMoreOp(true, server, ops, op, alias);
    RefusalLogsNothing(op, verdict, alias, High(true, ops + [op]));
    assert t + [] == t;
    RunKeepsConserved(true, server, ops + [op]);
    RefusedForCredit(server, l, op);
    if server { RoomForTheKnown(after, alias, again.at); }
    RetryFrom(verdict, Step(true, server, after, again).1, t, op.at, again.at);
  }

  lemma RefusalLogsNothing(op: Op, verdict: Verdict, alias: int, high: int)
    requires verdict.Refused?
    ensures Logged(op, verdict, alias, high) == []
  {
  }

  lemma RetryFrom(verdict: Verdict, later: Verdict, t: seq<Stamp>, now: int, then_: int)
    requires exists crowded :: SharedVerdictFor(verdict, crowded, t, now)
    requires verdict.Refused? && verdict.reason == MailboxRate && SharedVerdictFor(later, false, t, then_)
    ensures verdict.retry > 0 && (later.Admitted? <==> then_ >= now + verdict.retry)
  {
  }

  lemma RefusedForCredit(server: bool, l: Limiter, op: Op)
    requires op.BeginOp?
    ensures var (next, verdict) := Step(true, server, l, op);
            verdict.Refused? && verdict.reason == MailboxRate ==> op.permit.alias in next.rates
  {
  }

  lemma StepIsBegin(server: bool, l: Limiter, op: Op)
    requires op.BeginOp?
    ensures Step(true, server, l, op) == SharedBegin(server, if server then CleanUp(l, op.at) else l, op.permit, op.at)
  {
  }

  lemma BucketsAt(server: bool, l: Limiter, alias: int, t: seq<Stamp>, now: int)
    requires Conserved(true, l) && Owed(l.rates, alias, t, now) && Spent(l.rates, alias, t)
    ensures var c := if server then CleanUp(l, now) else l;
            && Owed(c.rates, alias, t, now) && Spent(c.rates, alias, t)
            && (alias in c.rates ==> c.rates[alias].credit <= CAPACITY)
  {
    CleanUpKeepsOwed(l, alias, t, now, now);
    CleanedIsKept(l, now, alias);
    CreditIsWithin(l, alias);
    hide Conserved, Owed, SpentAt, CleanUp;
  }

  lemma VerdictOnMap(server: bool, c: Limiter, p: Permit, t: seq<Stamp>, now: int)
    requires Owed(c.rates, p.alias, t, now) && Spent(c.rates, p.alias, t)
    requires p.alias in c.rates ==> c.rates[p.alias].credit <= CAPACITY
    requires forall k :: 0 <= k < |t| ==> Lateness(t, k) == 0
    ensures var crowded := server && p.alias !in c.rates && |c.rates| >= 8192;
            SharedVerdictFor(SharedBegin(server, c, p, now).1, crowded, t, now)
  {
    hide Lateness, Refill, Spend, OwedBy, SpentAt;
    if p.alias in c.rates {
      var i :| 0 <= i < |t| && SpentAt(c.rates[p.alias], t, i);
      VerdictOnBucket(c.rates[p.alias], t, now, i);
    } else {
      FullIsFull(now);
    }
  }

  lemma CreditIsWithin(l: Limiter, alias: int)
    requires Conserved(true, l)
    ensures alias in l.rates ==> l.rates[alias].credit <= CAPACITY
  {
    assert RateAt(true, l.rates, l.permits, alias);
  }

  lemma FullIsFull(now: int)
    ensures Refill(FullBucket(now), now).credit == CAPACITY
  {
  }

  // ---------------------------------------------------------------- legacy verdicts

  /** A waiting entry remembers the end of a cooldown. */
  predicate Recalls(rates: map<int, Rate>, alias: int, completions: seq<int>) {
    alias in rates && !rates[alias].inFlight ==>
      exists i :: 0 <= i < |completions| && completions[i] + INTERVAL == rates[alias].nextAt
  }

  lemma StepKeepsRecalls(server: bool, l: Limiter, op: Op, alias: int, completions: seq<int>)
    requires Conserved(false, l) && Recalls(l.rates, alias, completions)
    ensures Recalls(Step(false, server, l, op).0.rates, alias, completions + Completed(l, op, alias))
  {
    assert completions + [] == completions;
    match op
    case BeginOp(p, at) =>
      CleanedIsKept(l, at, alias);
      hide Conserved, CleanUp;
    case ReleaseOp(id, at) =>
      if id in l.permits && l.permits[id].alias == alias {
        assert (completions + [at])[|completions|] + INTERVAL == Release(false, l, id, at).rates[alias].nextAt;
      }
      hide Conserved;
  }

  lemma {:induction false} RunKeepsRecalls(server: bool, ops: seq<Op>, alias: int)
    ensures Recalls(Execute(false, server, ops).0.rates, alias, Completions(false, server, ops, alias))
  {
    if ops != [] {
      var before, op := ops[..|ops| - 1], ops[|ops| - 1];
      RunKeepsRecalls(server, before, alias);
      RunKeepsConserved(false, server, before);
      StepKeepsRecalls(server, Execute(false, server, before).0, op, alias, Completions(false, server, before, alias));
      hide Conserved, Step, Recalls, Completed;
    }
  }

  ghost predicate Busy(permits: map<int, Permit>, alias: int) {
    exists id :: id in permits && permits[id].alias == alias
  }

  /** Every pickup completed at least 2 s before. */
  predicate Rested(completions: seq<int>, at: int) {
    forall i :: 0 <= i < |completions| ==> completions[i] + 2 * SECOND <= at
  }

  /**
   An alias with a pickup under way, one that is not rested, an account with two pickups under way and a full map
   refuse, in this order. Only the second quotes a time of its own: the shortest one after which the alias is rested.
   */
  ghost predicate LegacyVerdictFor(
    verdict: Verdict, busy: bool, completions: seq<int>, held: nat, crowded: bool, now: int)
  {
    if busy then verdict == Refused(MailboxInflight, 2 * SECOND)
    else if !Rested(completions, now) then
      && verdict.Refused? && verdict.reason == MailboxCooldown && verdict.retry > 0
      && Rested(completions, now + verdict.retry)
      && exists i :: 0 <= i < |completions| && completions[i] + 2 * SECOND == now + verdict.retry
    else if held >= 2 then verdict == Refused(AccountConcurrency, 2 * SECOND)
    else if crowded then verdict == Refused(MailboxCapacity, 2 * SECOND)
    else verdict.Admitted?
  }

  /** With readings in order, a legacy pickup's verdict follows from the pickups under way and those completed. */
  lemma LegacyVerdict(server: bool, ops: seq<Op>, op: Op)
    requires op.BeginOp? && Ordered(false, ops + [op])
    ensures var l, alias := Execute(false, server, ops).0, op.permit.alias;
            var kept := CleanUp(l, op.at).rates;
            LegacyVerdictFor(
              Step(false, server, l, op).1, Busy(l.permits, alias), Completions(false, server, ops, alias),
              |AccountPermits(l.permits, op.permit.account)|, server && alias !in kept && |kept| >= 8192, op.at)
  {
    hide *;
    var l, alias := Execute(false, server, ops).0, op.permit.alias;
    var completions := Completions(false, server, ops, alias);
    LegacyBooksOf(server, ops, op);
    CooldownsAt(server, l, alias, completions, op.at);
    LegacyVerdictOnMap(server, if server then CleanUp(l, op.at) else l, op.permit, completions, op.at);
    StepIsLegacyBegin(server, l, op);
  }

  lemma LegacyBooksOf(server: bool, ops: seq<Op>, op: Op)
    requires op.BeginOp? && Ordered(false, ops + [op])
    ensures var l, alias := Execute(false, server, ops).0, op.permit.alias;
            var completions := Completions(false, server, ops, alias);
            Conserved(false, l) && Cooled(l.rates, alias, completions, op.at) && Recalls(l.rates, alias, completions)
  {
    assert (ops + [op])[..|ops|] == ops;
    OrderedFront(false, ops + [op]);
    RunKeepsCooled(server, ops, op.permit.alias);
    RunKeepsRecalls(server, ops, op.permit.alias);
    RunKeepsConserved(false, server, ops);
    hide Execute, Completions, High, Ordered, Conserved, Recalls;
  }

  lemma StepIsLegacyBegin(server: bool, l: Limiter, op: Op)
    requires op.BeginOp?
    ensures Step(false, server, l, op)
            == LegacyBegin(server, if server then CleanUp(l, op.at) else l, op.permit, op.at)
    ensures CleanUp(l, op.at).permits == l.permits && CleanUp(l, op.at).active == l.active
  {
  }

  lemma CooldownsAt(server: bool, l: Limiter, alias: int, completions: seq<int>, now: int)
    requires Conserved(false, l) && Cooled(l.rates, alias, completions, now) && Recalls(l.rates, alias, completions)
    ensures var c := if server then CleanUp(l, now) else l;
            Conserved(false, c) && Cooled(c.rates, alias, completions, now) && Recalls(c.rates, alias, completions)
  {
    CleanUpKeepsConserved(false, l, now);
    CleanedIsKept(l, now, alias);
    hide Conserved;
  }

  lemma BusyIsInFlight(l: Limiter, alias: int)
    requires Conserved(false, l)
    ensures Busy(l.permits, alias) <==> alias in l.rates && l.rates[alias].inFlight
  {
    var readers, waiters := AliasPermits(l.permits, alias, false), AliasPermits(l.permits, alias, true);
    assert RateAt(false, l.rates, l.permits, alias);
    if alias in l.rates && l.rates[alias].inFlight {
      var id := Pick(readers + waiters);
      assert id in l.permits && l.permits[id].alias == alias;
    }
    if Busy(l.permits, alias) {
      var id :| id in l.permits && l.permits[id].alias == alias;
      HolderIsKnown(false, l, id);
      assert id in readers + waiters;
    }
  }

  lemma LegacyVerdictOnMap(server: bool, c: Limiter, p: Permit, completions: seq<int>, now: nat)
    requires Conserved(false, c) && Cooled(c.rates, p.alias, completions, now) && Recalls(c.rates, p.alias, completions)
    ensures LegacyVerdictFor(
              LegacyBegin(server, c, p, now).1, Busy(c.permits, p.alias), completions,
              |AccountPermits(c.permits, p.account)|, server && p.alias !in c.rates && |c.rates| >= 8192, now)
  {
    BusyIsInFlight(c, p.alias);
    assert ActiveAt(false, c.active, c.permits, p.account);
    hide Conserved, Busy, AccountPermits;
    if p.alias in c.rates && !c.rates[p.alias].inFlight {
      var i :| 0 <= i < |completions| && completions[i] + INTERVAL == c.rates[p.alias].nextAt;
      assert now < c.rates[p.alias].nextAt <==> !Rested(completions, now);
    }
  }

  lemma OneMoreCompletion(server: bool, ops: seq<Op>, op: Op, alias: int)
    ensures var (l, verdicts) := Execute(false, server, ops);
            && Execute(false, server, ops + [op]).0 == Step(false, server, l, op).0
            && Completions(false, server, ops + [op], alias)
               == Completions(false, server, ops, alias) + Completed(l, op, alias)
  {
    assert (ops + [op])[..|ops|] == ops;
    hide Step, Completed;
  }

  /** A refused legacy pickup leaves everything but idle entries as it was. */
  lemma LegacyRefusal(server: bool, ops: seq<Op>, op: Op)
    requires op.BeginOp? && Step(false, server, Execute(false, server, ops).0, op).1.Refused?
    ensures var l, after := Execute(false, server, ops).0, Execute(false, server, ops + [op]).0;
            && after.permits == l.permits && after.active == l.active
            && Completions(false, server, ops + [op], op.permit.alias)
               == Completions(false, server, ops, op.permit.alias)
            && (Step(false, server, l, op).1.reason == MailboxCooldown ==> op.permit.alias in after.rates)
  {
    OneMoreCompletion(server, ops, op, op.permit.alias);
    var completions := Completions(false, server, ops, op.permit.alias);
    assert completions + [] == completions;
    hide Execute, Completions;
  }

  /**
   The time quoted for a cooldown is exact: if nothing happens in between, the alias is refused as cooling down until
   then and not from then on; if its account has fewer than two pickups under way, it is admitted.
   */
  lemma CooldownRetryIsExact(server: bool, ops: seq<Op>, op: Op, again: Op)
    requires op.BeginOp? && again.BeginOp? && again.permit.alias == op.permit.alias
    requires Ordered(false, ops + [op] + [again])
    requires var verdict := Step(false, server, Execute(false, server, ops).0, op).1;
             verdict.Refused? && verdict.reason == MailboxCooldown
    ensures var l, after := Execute(false, server, ops).0, Execute(false, server, ops + [op]).0;
            var retry, later := Step(false, server, l, op).1.retry, Step(false, server, after, again).1;
            && retry > 0
            && (later.Refused? && later.reason == MailboxCooldown <==> again.at < op.at + retry)
            && (|AccountPermits(l.permits, again.permit.account)| < 2 ==>
                  (later.Admitted? <==> again.at >= op.at + retry))
  {
    hide *;
    var after := Execute(false, server, ops + [op]).0;
    OrderedFronts(ops + [op], again);
    LegacyVerdict(server, ops, op);
    LegacyVerdict(server, ops + [op], again);
    LegacyRefusal(server, ops, op);
    RunKeepsConserved(false, server, ops + [op]);
    if server { RoomForTheKnown(after, op.permit.alias, again.at); }
    var l, alias := Execute(false, server, ops).0, op.permit.alias;
    var completions := Completions(false, server, ops, alias);
    var kept := CleanUp(l, op.at).rates;
    CooldownFrom(Step(false, server, l, op).1, Step(false, server, after, again).1, Busy(l.permits, alias), completions,
                 op.at, again.at, |AccountPermits(l.permits, op.permit.account)|,
                 |AccountPermits(l.permits, again.permit.account)|, server && alias !in kept && |kept| >= 8192);
  }

  lemma RestedFrom(
      verdict: Verdict, completions: seq<int>, finished: int, now: int, held: nat)
    requires LegacyVerdictFor(verdict, false, completions + [finished], held, false, now)
    requires Rested(completions, finished) && held < 2
    ensures verdict.Admitted? <==> now >= finished + 2 * SECOND
  {
    assert (completions + [finished])[|completions|] == finished;
  }

  lemma OrderedFronts(ops: seq<Op>, op: Op)
    requires Ordered(false, ops + [op])
    ensures Ordered(false, ops) && op.at >= High(false, ops)
  {
    assert (ops + [op])[..|ops|] == ops && (ops + [op])[|ops|] == op;
    OrderedFront(false, ops + [op]);
    hide High;
  }

  lemma CooldownFrom(
      verdict: Verdict, later: Verdict, busy: bool, completions: seq<int>, now: int, then_: int, held: nat,
      holders: nat, crowded: bool)
    requires LegacyVerdictFor(verdict, busy, completions, held, crowded, now)
    requires LegacyVerdictFor(later, busy, completions, holders, false, then_)
    requires verdict.Refused? && verdict.reason == MailboxCooldown
    ensures verdict.retry > 0
    ensures later.Refused? && later.reason == MailboxCooldown <==> then_ < now + verdict.retry
    ensures holders < 2 ==> (later.Admitted? <==> then_ >= now + verdict.retry)
  {
  }

  lemma InflightMeansBusy(server: bool, ops: seq<Op>, op: Op)
    requires op.BeginOp? && Ordered(false, ops + [op])
    requires var verdict := Step(false, server, Execute(false, server, ops).0, op).1;
             verdict.Refused? && verdict.reason == MailboxInflight
    ensures Busy(Execute(false, server, ops).0.permits, op.permit.alias)
    ensures Step(false, server, Execute(false, server, ops).0, op).1.retry == 2 * SECOND
  {
    LegacyVerdict(server, ops, op);
    hide Execute, Step, CleanUp, Completions, Ordered, Busy;
  }

  lemma BusyStaysRefused(server: bool, ops: seq<Op>, op: Op)
    requires op.BeginOp? && Ordered(false, ops + [op]) && Busy(Execute(false, server, ops).0.permits, op.permit.alias)
    ensures Step(false, server, Execute(false, server, ops).0, op).1 == Refused(MailboxInflight, 2 * SECOND)
  {
    LegacyVerdict(server, ops, op);
    hide Execute, Step, CleanUp, Completions, Ordered, Busy;
  }

  lemma OrderedWithout(ops: seq<Op>, release: Op, op: Op)
    requires Ordered(false, ops + [release] + [op])
    ensures Ordered(false, ops + [op])
  {
    var all, short := ops + [release] + [op], ops + [op];
    OrderedFronts(ops + [release], op);
    OrderedFronts(ops, release);
    OneMoreReading(ops, release);
    forall i | 0 <= i < |short| && Reads(false, short[i])
      ensures short[i].at >= High(false, short[..i])
    {
      if i < |ops| {
        assert short[..i] == ops[..i] && short[i] == ops[i];
      } else {
        assert short[..i] == ops;
      }
    }
  }

  lemma OneMoreReading(ops: seq<Op>, op: Op)
    ensures High(false, ops + [op]) == if op.at > High(false, ops) then op.at else High(false, ops)
  {
    assert (ops + [op])[..|ops|] == ops;
  }

  /** The completion of the one pickup of a busy alias frees it; every earlier completion is 2 s old by then. */
  lemma ReleasedAlias(server: bool, ops: seq<Op>, id: int, finished: nat, alias: int)
    requires Ordered(false, ops + [ReleaseOp(id, finished)])
    requires id in Execute(false, server, ops).0.permits && Execute(false, server, ops).0.permits[id].alias == alias
    ensures var l := Execute(false, server, ops).0;
            var after := Step(false, server, l, ReleaseOp(id, finished)).0;
            && !Busy(after.permits, alias) && alias in after.rates
            && Completed(l, ReleaseOp(id, finished), alias) == [finished]
            && Rested(Completions(false, server, ops, alias), finished)
  {
    var l := Execute(false, server, ops).0;
    OrderedFronts(ops, ReleaseOp(id, finished));
    RunKeepsConserved(false, server, ops);
    RunKeepsCooled(server, ops, alias);
    LegacyLimits(server, ops, alias, 0);
    hide Execute, Completions, Ordered, High, Conserved;
    BusyIsInFlight(l, alias);
    OnlyHolder(l.permits, id);
  }

  lemma OnlyHolder(permits: map<int, Permit>, id: int)
    requires id in permits
    requires |AliasPermits(permits, permits[id].alias, false)| + |AliasPermits(permits, permits[id].alias, true)| <= 1
    ensures !Busy(permits - {id}, permits[id].alias)
  {
    var alias, waiting := permits[id].alias, permits[id].waiting;
    assert id in AliasPermits(permits, alias, waiting);
    if Busy(permits - {id}, alias) {
      var other :| other in permits - {id} && permits[other].alias == alias;
      assert other in AliasPermits(permits, alias, permits[other].waiting);
      if permits[other].waiting == waiting {
        SingletonIsUnique(AliasPermits(permits, alias, waiting), id, other);
      } else {
        NotEmpty(AliasPermits(permits, alias, waiting), id);
        NotEmpty(AliasPermits(permits, alias, !waiting), other);
      }
    }
  }

  lemma NotEmpty(s: set<int>, x: int)
    requires x in s
    ensures |s| >= 1
  {
  }

  /**
   A pickup refused because its alias has one under way stays refused until that one completes. From then on the
   alias needs 2 s, so the quoted 2 s are exact when the completion comes at once and else too short.
   */
  lemma InflightRetry(server: bool, ops: seq<Op>, op: Op, id: int, finished: nat, again: Op)
    requires op.BeginOp? && again.BeginOp? && again.permit.alias == op.permit.alias
    requires Ordered(false, ops + [op] + [ReleaseOp(id, finished)] + [again])
    requires var verdict := Step(false, server, Execute(false, server, ops).0, op).1;
             verdict.Refused? && verdict.reason == MailboxInflight
    requires var permits := Execute(false, server, ops).0.permits;
             id in permits && permits[id].alias == op.permit.alias
    ensures Step(false, server, Execute(false, server, ops).0, op).1.retry == 2 * SECOND
    ensures Step(false, server, Execute(false, server, ops + [op]).0, again).1 == Refused(MailboxInflight, 2 * SECOND)
    ensures var after := Execute(false, server, ops + [op] + [ReleaseOp(id, finished)]).0;
            |AccountPermits(after.permits, again.permit.account)| < 2 ==>
              (Step(false, server, after, again).1.Admitted? <==> again.at >= finished + 2 * SECOND)
  {
    hide *;
    var alias, release := op.permit.alias, ReleaseOp(id, finished);
    var held, after := Execute(false, server, ops + [op]).0, Execute(false, server, ops + [op] + [release]).0;
    var completions := Completions(false, server, ops + [op], alias);
    OrderedFronts(ops + [op] + [release], again);
    OrderedFronts(ops + [op], release);
    OrderedFronts(ops, op);
    LegacyRefusal(server, ops, op);
    OrderedWithout(ops + [op], release, again);
    InflightMeansBusy(server, ops, op);
    BusyStaysRefused(server, ops + [op], again);
    LegacyVerdict(server, ops + [op] + [release], again);
    OneMoreCompletion(server, ops + [op], release, alias);
    ReleasedAlias(server, ops + [op], id, finished, alias);
    RunKeepsConserved(false, server, ops + [op] + [release]);
    if server { RoomForTheKnown(after, alias, again.at); }
    var holders := |AccountPermits(after.permits, again.permit.account)|;
    if holders < 2 {
      RestedFrom(Step(false, server, after, again).1, completions, finished, again.at, holders);
    }
  }

  /** What a concurrency refusal says about the account and the alias. */
  lemma ConcurrencyMeansHeld(server: bool, ops: seq<Op>, op: Op)
    requires op.BeginOp? && Ordered(false, ops + [op])
    requires var verdict := Step(false, server, Execute(false, server, ops).0, op).1;
             verdict.Refused? && verdict.reason == AccountConcurrency
    ensures Step(false, server, Execute(false, server, ops).0, op).1.retry == 2 * SECOND
    ensures var l, alias := Execute(false, server, ops).0, op.permit.alias;
            && !Busy(l.permits, alias) && Rested(Completions(false, server, ops, alias), op.at)
            && |AccountPermits(l.permits, op.permit.account)| == 2
  {
    LegacyVerdict(server, ops, op);
    LegacyLimits(server, ops, op.permit.alias, op.permit.account);
    hide Execute, Step, CleanUp, Completions, Ordered, Busy, Rested;
  }

  lemma ReleasedAccount(l: Limiter, id: int, finished: nat, server: bool, alias: int)
    requires Conserved(false, l) && id in l.permits && !Busy(l.permits, alias)
    requires |AccountPermits(l.permits, l.permits[id].account)| == 2
    ensures var after := Step(false, server, l, ReleaseOp(id, finished)).0;
            && !Busy(after.permits, alias) && |AccountPermits(after.permits, l.permits[id].account)| == 1
            && Completed(l, ReleaseOp(id, finished), alias) == []
  {
    var account, after := l.permits[id].account, l.permits - {id};
    assert AccountPermits(after, account) == AccountPermits(l.permits, account) - {id};
    OneMoreOrLess(AccountPermits(l.permits, account), id);
    assert forall k :: k in after ==> k in l.permits && after[k] == l.permits[k];
  }

  /**
   A pickup refused because its account has two under way stays refused as long as both are. When either completes it
   is admitted at once if the map has room, whatever the quoted 2 s.
   */
  lemma ConcurrencyRetry(server: bool, ops: seq<Op>, op: Op, id: int, finished: nat, again: Op)
    requires op.BeginOp? && again.BeginOp? && again.permit == op.permit
    requires Ordered(false, ops + [op] + [ReleaseOp(id, finished)] + [again])
    requires var verdict := Step(false, server, Execute(false, server, ops).0, op).1;
             verdict.Refused? && verdict.reason == AccountConcurrency
    requires var permits := Execute(false, server, ops).0.permits;
             id in permits && permits[id].account == op.permit.account
    ensures Step(false, server, Execute(false, server, ops).0, op).1.retry == 2 * SECOND
    ensures Step(false, server, Execute(false, server, ops + [op]).0, again).1
            == Refused(AccountConcurrency, 2 * SECOND)
    ensures var after := Execute(false, server, ops + [op] + [ReleaseOp(id, finished)]).0;
            var later, kept := Step(false, server, after, again).1, CleanUp(after, again.at).rates;
            if server && op.permit.alias !in kept && |kept| >= 8192
            then later == Refused(MailboxCapacity, 2 * SECOND)
            else later.Admitted?
  {
    hide *;
    var alias, release := op.permit.alias, ReleaseOp(id, finished);
    var held, after := Execute(false, server, ops + [op]).0, Execute(false, server, ops + [op] + [release]).0;
    var completions := Completions(false, server, ops + [op], alias);
    OrderedFronts(ops + [op] + [release], again);
    OrderedFronts(ops + [op], release);
    OneMoreReading(ops + [op], release);
    OneMoreReading(ops, op);
    ConcurrencyMeansHeld(server, ops, op);
    LegacyRefusal(server, ops, op);
    OrderedWithout(ops + [op], release, again);
    LegacyVerdict(server, ops + [op], again);
    LegacyVerdict(server, ops + [op] + [release], again);
    OneMoreCompletion(server, ops + [op], release, alias);
    RunKeepsConserved(false, server, ops + [op]);
    ReleasedAccount(held, id, finished, server, alias);
    assert completions + [] == completions;
    var kept, keptLater := CleanUp(held, again.at).rates, CleanUp(after, again.at).rates;
    RestedAt(Step(false, server, held, again).1, completions, 2, server && alias !in kept && |kept| >= 8192, op.at,
             again.at);
    RestedAt(Step(false, server, after, again).1, completions, 1, server && alias !in keptLater && |keptLater| >= 8192,
             op.at, again.at);
  }

  lemma RestedAt(verdict: Verdict, completions: seq<int>, held: nat, crowded: bool, then_: int, now: int)
    requires LegacyVerdictFor(verdict, false, completions, held, crowded, now)
    requires Rested(completions, then_) && then_ <= now
    ensures verdict.Admitted? <==> held < 2 && !crowded
    ensures held >= 2 ==> verdict == Refused(AccountConcurrency, 2 * SECOND)
    ensures held < 2 && crowded ==> verdict == Refused(MailboxCapacity, 2 * SECOND)
  {
  }

  // ---------------------------------------------------------------- what a clean-up keeps

  /** Some admissions are not yet paid back in full: the bucket of the alias is not full. */
  predicate Drawn(t: seq<Stamp>, now: int) {
    exists i :: 0 <= i < |t| && (|t| - i) * INTERVAL > now - t[i].at
  }

  lemma SharedEntryKept(l: Limiter, alias: int, t: seq<Stamp>, now: int)
    requires Conserved(true, l) && Owed(l.rates, alias, t, now) && Spent(l.rates, alias, t)
    requires forall k :: 0 <= k < |t| ==> Lateness(t, k) == 0
    ensures alias in Cleaned(l.rates, now) <==> Busy(l.permits, alias) || Drawn(t, now)
  {
    BusyIsCounted(l, alias);
    assert RateAt(true, l.rates, l.permits, alias);
    hide Conserved, Busy, AliasPermits, Lateness;
    if alias in l.rates {
      var i :| 0 <= i < |t| && SpentAt(l.rates[alias], t, i);
      if now < l.rates[alias].nextAt { assert (|t| - i) * INTERVAL > now - t[i].at; }
    }
  }

  lemma BusyIsCounted(l: Limiter, alias: int)
    requires Conserved(true, l)
    ensures Busy(l.permits, alias) <==> alias in l.rates && (l.rates[alias].inFlight || l.rates[alias].waiting)
  {
    var readers, waiters := AliasPermits(l.permits, alias, false), AliasPermits(l.permits, alias, true);
    assert RateAt(true, l.rates, l.permits, alias);
    if alias in l.rates && (l.rates[alias].inFlight || l.rates[alias].waiting) {
      var id := Pick(if l.rates[alias].inFlight then readers else waiters);
      assert id in l.permits && l.permits[id].alias == alias;
    }
    if Busy(l.permits, alias) {
      var id :| id in l.permits && l.permits[id].alias == alias;
      HolderIsKnown(true, l, id);
      assert !Idle(l.rates[alias], l.rates[alias].nextAt);
    }
  }

  /**
   With readings in order, a clean-up keeps exactly the aliases with a pickup under way, and those whose bucket is not
   full in shared mode or whose cooldown is not over in legacy mode.
   */
  lemma CleanUpKeepsTheBusy(shared: bool, ops: seq<Op>, op: Op)
    requires op.BeginOp? && Ordered(shared, ops + [op])
    ensures var l, alias := Execute(shared, true, ops).0, op.permit.alias;
            op.at >= l.cleanupAt ==>
              (alias in CleanUp(l, op.at).rates <==>
                 Busy(l.permits, alias)
                 || (if shared then Drawn(Admissions(true, true, ops, alias), op.at)
                     else !Rested(Completions(false, true, ops, alias), op.at)))
  {
    hide *;
    var l, alias := Execute(shared, true, ops).0, op.permit.alias;
    if shared {
      BooksOf(true, ops, op);
      SharedEntryKept(l, alias, Admissions(true, true, ops, alias), op.at);
    } else {
      LegacyBooksOf(true, ops, op);
      LegacyEntryKept(l, alias, Completions(false, true, ops, alias), op.at);
    }
    CleanUpMeans(l, op.at);
  }

  lemma LegacyEntryKept(l: Limiter, alias: int, completions: seq<int>, now: int)
    requires Conserved(false, l) && Cooled(l.rates, alias, completions, now) && Recalls(l.rates, alias, completions)
    ensures alias in Cleaned(l.rates, now) <==> Busy(l.permits, alias) || !Rested(completions, now)
  {
    BusyIsInFlight(l, alias);
    assert RateAt(false, l.rates, l.permits, alias);
    hide Conserved, Busy, AliasPermits;
  }

  lemma CleanUpMeans(l: Limiter, now: int)
    ensures now >= l.cleanupAt ==> CleanUp(l, now).rates == Cleaned(l.rates, now)
  {
  }

  /** The next clean-up is due no later than a second after the latest reading. */
  lemma {:induction false} CleanUpIsRegular(shared: bool, ops: seq<Op>)
    ensures Execute(shared, true, ops).0.cleanupAt <= High(shared, ops) + SECOND
  {
    if ops != [] {
      CleanUpIsRegular(shared, ops[..|ops| - 1]);
      hide Cleaned, Freed, Decremented, SharedBegin, LegacyBegin;
      StepMovesCleanUp(shared, Execute(shared, true, ops[..|ops| - 1]).0, ops[|ops| - 1]);
    }
  }

  lemma StepMovesCleanUp(shared: bool, l: Limiter, op: Op)
    ensures Step(shared, true, l, op).0.cleanupAt
            == if op.BeginOp? && op.at >= l.cleanupAt then op.at + SECOND else l.cleanupAt
  {
  }

  // ---------------------------------------------------------------- forgetting is unobservable

  /** An entry that the server may have dropped by now. */
  predicate Forgettable(rate: Rate, now: int) {
    Idle(rate, now) && rate.readers == 0 && rate.waiters == 0
  }

  predicate AlikeAt(clean: map<int, Rate>, full: map<int, Rate>, alias: int, now: int) {
    if alias in clean then alias in full && full[alias] == clean[alias]
    else alias in full ==> Forgettable(full[alias], now)
  }

  /** The server's limiter lacks only entries that behave as if they were not there. */
  ghost predicate Alike(clean: Limiter, full: Limiter, now: int) {
    && clean.active == full.active && clean.permits == full.permits && clean.issued == full.issued
    && forall a: int :: AlikeAt(clean.rates, full.rates, a, now)
  }

  lemma AlikeLater(clean: Limiter, full: Limiter, then_: int, now: int)
    requires Alike(clean, full, then_) && then_ <= now
    ensures Alike(clean, full, now)
  {
    forall a: int
      ensures AlikeAt(clean.rates, full.rates, a, now)
    {
      assert AlikeAt(clean.rates, full.rates, a, then_);
    }
  }

  lemma CleanUpKeepsAlike(shared: bool, clean: Limiter, full: Limiter, now: int)
    requires Conserved(shared, clean) && Conserved(shared, full) && Alike(clean, full, now)
    ensures Alike(CleanUp(clean, now), full, now)
  {
    forall a: int
      ensures AlikeAt(CleanUp(clean, now).rates, full.rates, a, now)
    {
      assert AlikeAt(clean.rates, full.rates, a, now);
      assert RateAt(shared, full.rates, full.permits, a);
    }
  }

  /** A full idle bucket, an expired cooldown and a missing entry are the same to the next pickup. */
  lemma MissingIsForgettable(shared: bool, full: Limiter, p: Permit, now: int)
    requires Conserved(shared, full) && p.alias in full.rates && Forgettable(full.rates[p.alias], now)
    ensures shared ==> Spend(Refill(full.rates[p.alias], now), p.waiting)
                       == Spend(Refill(FullBucket(now), now), p.waiting)
    ensures shared ==> Refill(full.rates[p.alias], now).credit == Refill(FullBucket(now), now).credit == CAPACITY
    ensures !full.rates[p.alias].inFlight && now >= full.rates[p.alias].nextAt
  {
    assert RateAt(shared, full.rates, full.permits, p.alias);
  }

  lemma AdmitKeepsAlike(clean: Limiter, full: Limiter, rate: Rate, p: Permit, now: int)
    requires Alike(clean, full, now)
    ensures Alike(Admit(clean, rate, p).0, Admit(full, rate, p).0, now)
    ensures Admit(clean, rate, p).1 == Admit(full, rate, p).1
  {
    var clean', full' := Admit(clean, rate, p).0, Admit(full, rate, p).0;
    forall a: int
      ensures AlikeAt(clean'.rates, full'.rates, a, now)
    {
      assert AlikeAt(clean.rates, full.rates, a, now);
    }
  }

  /** The guard of the capacity refusal: an unknown alias, a full map, and no earlier reason to refuse. */
  predicate Crowded(shared: bool, l: Limiter, p: Permit) {
    && p.alias !in l.rates && |l.rates| >= MAX_ENTRIES
    && (shared || CountOf(l.active, p.account) < ACCOUNT_LIMIT)
  }

  lemma BeginKeepsAlike(shared: bool, clean: Limiter, full: Limiter, p: Permit, now: nat)
    requires Conserved(shared, clean) && Conserved(shared, full) && Alike(clean, full, now)
    requires !Crowded(shared, clean, p)
    ensures Begin(shared, true, clean, p, now).1 == Begin(shared, false, full, p, now).1
    ensures Alike(Begin(shared, true, clean, p, now).0, Begin(shared, false, full, p, now).0, now)
  {
    assert AlikeAt(clean.rates, full.rates, p.alias, now);
    if p.alias in full.rates && p.alias !in clean.rates {
      MissingIsForgettable(shared, full, p, now);
    }
    if shared {
      AdmitKeepsAlike(clean, full, Spend(Refill(Entry(full, p.alias, now), now), p.waiting), p, now);
    } else {
      AdmitKeepsAlike(clean, full, Zero().(inFlight := true), p, now);
    }
    hide Conserved, Spend, Refill, Alike, Admit;
  }

  /** The server refuses a pickup for want of space exactly when the guard holds; the ideal limiter never does. */
  lemma OnlyCrowdedIsRefused(shared: bool, l: Limiter, p: Permit, now: nat)
    ensures Begin(shared, false, l, p, now).1.Refused? ==> Begin(shared, false, l, p, now).1.reason != MailboxCapacity
    ensures Crowded(shared, l, p) ==>
              Begin(shared, true, l, p, now).1.Refused? && Begin(shared, true, l, p, now).1.reason == MailboxCapacity
  {
  }

  lemma ReleaseKeepsAlike(shared: bool, clean: Limiter, full: Limiter, id: int, at: nat, now: int)
    requires Conserved(shared, clean) && Conserved(shared, full) && Alike(clean, full, now)
    ensures Alike(Release(shared, clean, id, at), Release(shared, full, id, at), now)
  {
    if id in clean.permits {
      HolderIsKnown(shared, clean, id);
      assert AlikeAt(clean.rates, full.rates, clean.permits[id].alias, now);
      hide Conserved;
      var clean', full' := Release(shared, clean, id, at), Release(shared, full, id, at);
      forall a: int
        ensures AlikeAt(clean'.rates, full'.rates, a, now)
      {
        assert AlikeAt(clean.rates, full.rates, a, now);
      }
    }
  }

  lemma StepKeepsAlike(shared: bool, clean: Limiter, full: Limiter, op: Op, now: int)
    requires Conserved(shared, clean) && Conserved(shared, full) && Alike(clean, full, now)
    requires op.BeginOp? ==> now == op.at && !Crowded(shared, CleanUp(clean, op.at), op.permit)
    ensures Step(shared, true, clean, op).1 == Step(shared, false, full, op).1
    ensures Alike(Step(shared, true, clean, op).0, Step(shared, false, full, op).0, now)
  {
    hide Conserved, Alike, CleanUp, Begin, Release, Crowded;
    match op
    case BeginOp(p, at) =>
      CleanUpKeepsConserved(shared, clean, at);
      CleanUpKeepsAlike(shared, clean, full, at);
      BeginKeepsAlike(shared, CleanUp(clean, at), full, p, at);
    case ReleaseOp(id, at) =>
      ReleaseKeepsAlike(shared, clean, full, id, at, now);
  }

  predicate CrowdedAt(shared: bool, ops: seq<Op>, i: nat)
    requires i < |ops|
  {
    ops[i].BeginOp? && Crowded(shared, CleanUp(Execute(shared, true, ops[..i]).0, ops[i].at), ops[i].permit)
  }

  /** No pickup meets a map that is full after its clean-up. */
  predicate NeverCrowded(shared: bool, ops: seq<Op>) {
    forall i :: 0 <= i < |ops| ==> !CrowdedAt(shared, ops, i)
  }

  lemma NeverCrowdedFront(shared: bool, ops: seq<Op>)
    requires NeverCrowded(shared, ops) && ops != []
    ensures NeverCrowded(shared, ops[..|ops| - 1]) && !CrowdedAt(shared, ops, |ops| - 1)
  {
    var front := ops[..|ops| - 1];
    forall i | 0 <= i < |front|
      ensures !CrowdedAt(shared, front, i)
    {
      assert front[..i] == ops[..i] && front[i] == ops[i];
      assert !CrowdedAt(shared, ops, i);
    }
  }

  lemma {:induction false} UncrowdedRunsAreAlike(shared: bool, ops: seq<Op>)
    requires Ordered(shared, ops) && NeverCrowded(shared, ops)
    ensures Execute(shared, true, ops).1 == Execute(shared, false, ops).1
    ensures Alike(Execute(shared, true, ops).0, Execute(shared, false, ops).0, High(shared, ops))
  {
    if ops != [] {
      var before, op := ops[..|ops| - 1], ops[|ops| - 1];
      var clean, full := Execute(shared, true, before).0, Execute(shared, false, before).0;
      OrderedFront(shared, ops);
      NeverCrowdedFront(shared, ops);
      UncrowdedRunsAreAlike(shared, before);
      RunKeepsConserved(shared, true, before);
      RunKeepsConserved(shared, false, before);
      AlikeLater(clean, full, High(shared, before), High(shared, ops));
      StepKeepsAlike(shared, clean, full, op, High(shared, ops));
      hide Conserved, Alike, Step, Crowded, Ordered, NeverCrowded;
    }
  }

  lemma {:induction false} VerdictAt(shared: bool, server: bool, ops: seq<Op>, i: nat)
    requires i < |ops|
    ensures |Execute(shared, server, ops).1| == |ops|
    ensures Execute(shared, server, ops).1[i] == Step(shared, server, Execute(shared, server, ops[..i]).0, ops[i]).1
  {
    hide Step;
    var front := ops[..|ops| - 1];
    if i < |front| {
      VerdictAt(shared, server, front, i);
      assert front[..i] == ops[..i];
    } else if front != [] {
      VerdictAt(shared, server, front, 0);
    }
  }

  /**
   Forgetting idle entries is unobservable: with readings in order, the server gives every pickup the
   verdict, and the quoted retry, of a limiter that never forgets and has no cap, if and only if no
   pickup meets a map that is full after its clean-up.
   */
  lemma ForgettingIsUnobservable(shared: bool, ops: seq<Op>)
    requires Ordered(shared, ops)
    ensures Execute(shared, true, ops).1 == Execute(shared, false, ops).1 <==> NeverCrowded(shared, ops)
  {
    if NeverCrowded(shared, ops) {
      UncrowdedRunsAreAlike(shared, ops);
    } else {
      var i :| 0 <= i < |ops| && CrowdedAt(shared, ops, i);
      VerdictAt(shared, true, ops, i);
      VerdictAt(shared, false, ops, i);
      OnlyCrowdedIsRefused(shared, CleanUp(Execute(shared, true, ops[..i]).0, ops[i].at), ops[i].permit, ops[i].at);
      OnlyCrowdedIsRefused(shared, Execute(shared, false, ops[..i]).0, ops[i].permit, ops[i].at);
      hide Execute, Begin, CleanUp, Crowded;
    }
  }

  lemma OneMoreOp(shared: bool, server: bool, ops: seq<Op>, op: Op, alias: int)
    ensures var (l, verdicts) := Execute(shared, server, ops);
            var (next, verdict) := Step(shared, server, l, op);
            && Execute(shared, server, ops + [op]) == (next, verdicts + [verdict])
            && Admissions(shared, server, ops + [op], alias)
               == Admissions(shared, server, ops, alias) + Logged(op, verdict, alias, High(shared, ops + [op]))
            && High(shared, ops + [op])
               == if Reads(shared, op) && op.at > High(shared, ops) then op.at else High(shared, ops)
  {
    assert (ops + [op])[..|ops|] == ops;
    hide Step, Logged;
  }

  const ONE: Permit := Permit(1, 1, false)
  const TWO: Permit := Permit(1, 2, false)
  const LATE: nat := 3900000000

  function Bucket(readers: int, nextAt: int, credit: int, refilled: int): Rate {
    Rate(readers > 0, readers, 0, nextAt, false, credit, refilled)
  }

  /** The limiter during the run; the server has forgotten alias 1 when it comes back. */
  function LateState(server: bool, n: nat): Limiter
    requires n <= 6
  {
    var first := if server then SECOND else 0;
    var then_ := if server then 5 * SECOND else 0;
    var other := Bucket(1, 6 * SECOND, INTERVAL, 4 * SECOND);
    match n
    case 0 => Empty()
    case 1 => Limiter(map[1 := Bucket(1, INTERVAL, INTERVAL, 0)], map[1 := 1], first, map[0 := ONE], 1)
    case 2 => Limiter(map[1 := Bucket(2, CAPACITY, 0, 0)], map[1 := 2], first, map[0 := ONE, 1 := ONE], 2)
    case 3 => Limiter(map[1 := Bucket(1, CAPACITY, 0, 0)], map[1 := 1], first, map[1 := ONE], 2)
    case 4 => Limiter(map[1 := Bucket(0, CAPACITY, 0, 0)], map[], first, map[], 2)
    case 5 =>
      Limiter(if server then map[2 := other] else map[1 := Bucket(0, CAPACITY, 0, 0), 2 := other],
              map[1 := 1], then_, map[2 := TWO], 3)
    case _ =>
      var again := if server then Bucket(1, LATE + INTERVAL, INTERVAL, LATE)
                   else Bucket(1, LATE + CAPACITY - (LATE - INTERVAL), LATE - INTERVAL, LATE);
      Limiter(map[1 := again, 2 := other], map[1 := 2], then_, map[2 := TWO, 3 := ONE], 4)
  }

  lemma FirstLateStep(server: bool)
    ensures Step(true, server, LateState(server, 0), BeginOp(ONE, 0)) == (LateState(server, 1), Admitted(0))
  {
    var after := Step(true, server, LateState(server, 0), BeginOp(ONE, 0)).0;
    assert after.rates == LateState(server, 1).rates;
    assert after.active == LateState(server, 1).active && after.permits == LateState(server, 1).permits;
  }

  lemma SecondLateStep(server: bool)
    ensures Step(true, server, LateState(server, 1), BeginOp(ONE, 0)) == (LateState(server, 2), Admitted(1))
  {
    var after := Step(true, server, LateState(server, 1), BeginOp(ONE, 0)).0;
    assert after.rates == LateState(server, 2).rates;
    assert after.active == LateState(server, 2).active && after.permits == LateState(server, 2).permits;
  }

  lemma ThirdLateStep(server: bool)
    ensures Step(true, server, LateState(server, 2), ReleaseOp(0, 0)) == (LateState(server, 3), Released)
  {
    var after := Step(true, server, LateState(server, 2), ReleaseOp(0, 0)).0;
    assert after.rates == LateState(server, 3).rates;
    assert after.active == LateState(server, 3).active && after.permits == LateState(server, 3).permits;
  }

  lemma FourthLateStep(server: bool)
    ensures Step(true, server, LateState(server, 3), ReleaseOp(1, 0)) == (LateState(server, 4), Released)
  {
    var after := Step(true, server, LateState(server, 3), ReleaseOp(1, 0)).0;
    assert after.rates == LateState(server, 4).rates;
    assert after.active == LateState(server, 4).active && after.permits == LateState(server, 4).permits;
  }

  lemma FifthLateStep(server: bool)
    ensures Step(true, server, LateState(server, 4), BeginOp(TWO, 4 * SECOND)) == (LateState(server, 5), Admitted(2))
  {
    var after := Step(true, server, LateState(server, 4), BeginOp(TWO, 4 * SECOND)).0;
    assert after.rates == LateState(server, 5).rates;
    assert after.active == LateState(server, 5).active && after.permits == LateState(server, 5).permits;
  }

  lemma SixthLateStep(server: bool)
    ensures Step(true, server, LateState(server, 5), BeginOp(ONE, LATE)) == (LateState(server, 6), Admitted(3))
  {
    var after := Step(true, server, LateState(server, 5), BeginOp(ONE, LATE)).0;
    assert after.rates == LateState(server, 6).rates;
    assert after.active == LateState(server, 6).active && after.permits == LateState(server, 6).permits;
  }

  /** Two pickups of alias 1, a clean-up by alias 2 at 4 s, and two pickups of alias 1 that read the clock before it. */
  function LateRun(): seq<Op> {
    [] + [BeginOp(ONE, 0)] + [BeginOp(ONE, 0)] + [ReleaseOp(0, 0)] + [ReleaseOp(1, 0)]
    + [BeginOp(TWO, 4 * SECOND)] + [BeginOp(ONE, LATE)] + [BeginOp(ONE, LATE)]
  }

  /**
   Readings out of order can pass the limit of the ordered ones: four admissions within 3.9 s. The last is
   one that a limiter without forgetting refuses.
   */
  lemma LateReadingsAdmitMore(server: bool)
    ensures server ==> Admissions(true, server, LateRun(), 1)
                       == [Stamp(0, 0), Stamp(0, 0), Stamp(3900000000, 4 * SECOND), Stamp(3900000000, 4 * SECOND)]
    ensures var verdicts := Execute(true, server, LateRun()).1;
            |verdicts| == 7 && (if server then verdicts[6].Admitted? else verdicts[6].Refused?)
  {
    FirstLateStep(server); SecondLateStep(server); ThirdLateStep(server);
    FourthLateStep(server); FifthLateStep(server); SixthLateStep(server); LastLateStep(server);
    NothingYet(server);
    hide Execute, Admissions, High, Step, LateState;
    var o1 := [] + [BeginOp(ONE, 0)];
    var o2 := o1 + [BeginOp(ONE, 0)];
    var o3 := o2 + [ReleaseOp(0, 0)];
    var o4 := o3 + [ReleaseOp(1, 0)];
    var o5 := o4 + [BeginOp(TWO, 4 * SECOND)];
    var o6 := o5 + [BeginOp(ONE, LATE)];
    OneMoreOp(true, server, [], BeginOp(ONE, 0), 1);
    OneMoreOp(true, server, o1, BeginOp(ONE, 0), 1);
    OneMoreOp(true, server, o2, ReleaseOp(0, 0), 1);
    OneMoreOp(true, server, o3, ReleaseOp(1, 0), 1);
    OneMoreOp(true, server, o4, BeginOp(TWO, 4 * SECOND), 1);
    OneMoreOp(true, server, o5, BeginOp(ONE, LATE), 1);
    OneMoreOp(true, server, o6, BeginOp(ONE, LATE), 1);
  }

  lemma LastLateStep(server: bool)
    ensures var verdict := Step(true, server, LateState(server, 6), BeginOp(ONE, LATE)).1;
            if server then verdict.Admitted? else verdict.Refused?
  {
  }

  lemma NothingYet(server: bool)
    ensures Execute(true, server, []) == (LateState(server, 0), [])
    ensures Admissions(true, server, [], 1) == [] && High(true, []) == 0
  {
  }

  // ---------------------------------------------------------------- the server's state

  lemma NonePending(before: map<int, Rate>, after: map<int, Rate>, pending: set<int>, now: nat)
    requires pending == {}
    requires forall a :: a in after <==> a in before && (a in pending || !Idle(before[a], now))
    requires forall a :: a in after ==> after[a] == before[a]
    ensures after == Cleaned(before, now)
  {
    var cleaned := Cleaned(before, now);
    assert forall a :: a in after <==> a in cleaned;
    assert forall a :: a in after ==> after[a] == cleaned[a];
    assert after.Keys == cleaned.Keys;
  }

  class PickupLimiter {
    const shared: bool
    var rates: map<int, Rate>
    var active: map<int, int>
    var cleanupAt: int
    var permits: map<int, Permit>
    var issued: int

    ghost function State(): Limiter
      reads this
    {
      Limiter(rates, active, cleanupAt, permits, issued)
    }

    constructor (shared: bool)
      ensures this.shared == shared && State() == Empty()
    {
      this.shared := shared;
      rates, active, cleanupAt, permits, issued := map[], map[], 0, map[], 0;
    }

    /** Walks over the entries and deletes the idle ones. */
    method ForgetIdle(now: nat)
      modifies this`rates
      ensures rates == Cleaned(old(rates), now)
    {
      var pending: set<int> := rates.Keys;
      while pending != {}
        invariant pending <= old(rates).Keys
        invariant forall a :: a in rates <==> a in old(rates) && (a in pending || !Idle(old(rates)[a], now))
        invariant forall a :: a in rates ==> rates[a] == old(rates)[a]
      {
        assert (forall a :: a !in pending) ==> pending == {};
        var a :| a in pending;
        if Idle(rates[a], now) { rates := rates - {a}; }
        pending := pending - {a};
      }
      NonePending(old(rates), rates, pending, now);
    }

    method BeginPickup(account: int, alias: int, waiting: bool, now: nat) returns (verdict: Verdict)
      modifies this
      ensures (State(), verdict) == Step(shared, true, old(State()), BeginOp(Permit(account, alias, waiting), now))
    {
      if now >= cleanupAt {
        ForgetIdle(now);
        cleanupAt := now + SECOND;
      }
      var known := alias in rates;
      var rate := if known then rates[alias] else Zero();
      if shared {
        verdict := BeginShared(Permit(account, alias, waiting), now, rate, known);
        return;
      }
      if rate.inFlight { return Refused(MailboxInflight, INTERVAL); }
      if now < rate.nextAt { return Refused(MailboxCooldown, rate.nextAt - now); }
      if CountOf(active, account) >= ACCOUNT_LIMIT { return Refused(AccountConcurrency, INTERVAL); }
      if !known && |rates| >= MAX_ENTRIES { return Refused(MailboxCapacity, INTERVAL); }
      verdict := Issue(Permit(account, alias, waiting), Zero().(inFlight := true));
    }

    method BeginShared(permit: Permit, now: nat, state: Rate, known: bool) returns (verdict: Verdict)
      requires known == (permit.alias in rates)
      requires state == if known then rates[permit.alias] else Zero()
      modifies this
      ensures (State(), verdict) == SharedBegin(true, old(State()), permit, now)
    {
      var rate := state;
      if !known { rate := rate.(credit := CAPACITY, refilled := now); }
      if now > rate.refilled {
        rate := rate.(credit := Min(CAPACITY, rate.credit + (now - rate.refilled)), refilled := now);
      }
      if !known && |rates| >= MAX_ENTRIES { return Refused(MailboxCapacity, SECOND); }
      if rate.credit < INTERVAL { return Refused(MailboxRate, INTERVAL - rate.credit); }
      rate := rate.(credit := rate.credit - INTERVAL);
      rate := rate.(nextAt := rate.refilled + (CAPACITY - rate.credit));
      rate := if permit.waiting then rate.(waiters := rate.waiters + 1, waiting := true)
              else rate.(readers := rate.readers + 1, inFlight := true);
      verdict := Issue(permit, rate);
    }

    method Issue(permit: Permit, rate: Rate) returns (verdict: Verdict)
      modifies this
      ensures (State(), verdict) == Admit(old(State()), rate, permit)
    {
      rates := rates[permit.alias := rate];
      active := active[permit.account := CountOf(active, permit.account) + 1];
      permits := permits[issued := permit];
      verdict := Admitted(issued);
      issued := issued + 1;
    }

    method ReleasePickup(id: int, finished: nat)
      modifies this
      ensures State() == Step(shared, true, old(State()), ReleaseOp(id, finished)).0
    {
      if id !in permits { return; }
      var permit := permits[id];
      permits := permits - {id};
      var current := if permit.alias in rates then rates[permit.alias] else Zero();
      if !shared {
        current := Zero().(nextAt := finished + INTERVAL);
      } else if permit.waiting {
        current := current.(waiters := current.waiters - 1);
        current := current.(waiting := current.waiters > 0);
      } else {
        current := current.(readers := current.readers - 1);
        current := current.(inFlight := current.readers > 0);
      }
      rates := rates[permit.alias := current];
      active := active[permit.account := CountOf(active, permit.account) - 1];
      if active[permit.account] == 0 { active := active - {permit.account}; }
    }
  }
}
