/**
 One account group of a batch deletion: the rolling session, the cached directory,
 the permanent stop and the shared throttle-recovery budget.
 */
module AliasDeletion {
  import opened Wrappers
  import opened Text
  import opened AppleErrors
  import opened AliasDirectory
  import opened AppleHistory

  const PENDING := "APPLE_ALIAS_CONFIRMATION_PENDING"

  datatype LocalAlias = LocalAlias(accountID: int, address: string, enabled: bool, lastSyncError: string)

  datatype Account = Account(email: string, imapUsername: string, isICloud: bool)

  /** A job context ends once and for all; a detached one has its own short deadline. */
  datatype Context = Job | Detached

  /** The stored session and the Apple ID of its record. */
  datatype Stored = Stored(record: string, session: Session)

  datatype Lookup = AccountRead(account: Account) | AliasRead(id: int, alias: LocalAlias)

  datatype Draw = Draw(
    elapsed: nat, cancel: bool, failure: Option<Err>, alias: LocalAlias, account: Account,
    record: string, session: Session, listing: Listing, before: set<RemoteAlias>, after: set<RemoteAlias>)

  predicate SameIdentity(left: Account, right: Account) {
    && left.isICloud && right.isICloud
    && SameEmail(left.email, right.email)
    && Trim(left.imapUsername) == Trim(right.imapUsername)
  }

  predicate Pending(alias: LocalAlias) {
    !alias.enabled && Trim(alias.lastSyncError) == PENDING
  }

  /**
   The identity is that of an iCloud mailbox: the letters of its address and the exact user name, both without the
   blanks around them.
   */
  lemma IdentityMeans(
      left: Account, right: Account, a: string, x: string, b: string, c: string, y: string, d: string,
      e: string, u: string, f: string, g: string, v: string, k: string)
    requires left.email == a + x + b && right.email == c + y + d && Unpadded(x) && Unpadded(y)
    requires left.imapUsername == e + u + f && right.imapUsername == g + v + k && Unpadded(u) && Unpadded(v)
    requires Blank(a) && Blank(b) && Blank(c) && Blank(d) && Blank(e) && Blank(f) && Blank(g) && Blank(k)
    ensures SameIdentity(left, right) <==>
              left.isICloud && right.isICloud && x != "" && SameLetters(x, y) && u == v
  {
    SameEmailMeans(a, x, b, c, y, d);
    TrimOf(e, u, f);
    TrimOf(g, v, k);
    hide Trim, SameEmail, SameLetters, Blank, Unpadded;
  }

  /** A pending alias is disabled and carries the mark of a creation that Apple has not confirmed. */
  lemma PendingMeans(alias: LocalAlias, a: string, x: string, b: string)
    requires alias.lastSyncError == a + x + b && Blank(a) && Blank(b) && Unpadded(x)
    ensures Pending(alias) <==> !alias.enabled && x == "APPLE_ALIAS_CONFIRMATION_PENDING"
  {
    TrimOf(a, x, b);
    hide Trim, Blank, Unpadded;
  }

  function Changed(): Err { Coded(AccountChangedCode, AccountChanged, None) }

  function NotConfirmedYet(): Err {
    Coded(ConfirmationPendingCode, ConfirmationPending, Some(Sentinel(StoreConfirmationPending)))
  }

  function NoRemoteId(): Err {
    Coded(UpstreamErrorCode, Upstream, Some(Plain("Apple alias omitted its remote ID")))
  }

  /** Why an answer's session is refused: another Apple ID, or else a region that is not known. */
  function NotPrepared(record: string, returned: Session, fallback: Session): Err {
    if OtherAppleId(record, if HasState(returned) then returned else fallback)
    then Coded(AccountMismatchCode, AccountMismatch, None)
    else Plain("unknown Apple service region")
  }

  /** The last two reads found the account and the alias of the item as they were when it was admitted. */
  predicate Rechecked(
    before: seq<Lookup>, after: seq<Lookup>, accountID: int, account: Account, aliasID: int, address: string)
  {
    && |after| == |before| + 2 && before <= after
    && var first, second := after[|before|], after[|before| + 1];
    && first.AccountRead? && SameIdentity(first.account, account)
    && second.AliasRead? && second.id == aliasID && second.alias.accountID == accountID
    && NormalizeEmail(second.alias.address) == address && !Pending(second.alias)
  }

  /** The durable write of a session when `upTo` requests had been sent. */
  datatype Checkpoint = Checkpoint(upTo: nat, session: Session, error: Option<Err>)

  /** An item's call begins: what had been sent, looked up and gone wrong before it. */
  datatype Start = Start(id: int, requests: nat, lookups: nat, troubles: nat)

  predicate ItemIs(starts: seq<Start>, id: int) {
    starts != [] && starts[|starts| - 1].id == id
  }

  /** An alias of the account was read under this address, and it was not pending. */
  predicate GoodRead(accountID: int, l: Lookup, id: int, address: string) {
    && l.AliasRead? && l.id == id && l.alias.accountID == accountID && !Pending(l.alias)
    && NormalizeEmail(l.alias.address) == address
  }

  /** There was such a read in the call of the current item. */
  predicate ReadNow(accountID: int, starts: seq<Start>, lookups: seq<Lookup>, address: string) {
    starts != [] &&
    var s := starts[|starts| - 1];
    exists j :: s.lookups <= j < |lookups| && GoodRead(accountID, lookups[j], s.id, address)
  }

  function One(b: bool): nat { if b then 1 else 0 }

  predicate NoneFailed(checkpoints: seq<Checkpoint>) {
    forall c :: c in checkpoints ==> c.error.None?
  }

  predicate SavedOnce(before: seq<Checkpoint>, after: seq<Checkpoint>, upTo: nat, session: Session) {
    && |after| == |before| + 1 && before <= after
    && after[|before|].upTo == upTo && after[|before|].session == session
  }

  /** Before the first request the session is the stored one, and later the one that was just stored. */
  predicate Begun(loaded: Option<Stored>, checkpoints: seq<Checkpoint>, h: History, session: Session) {
    && (h == [] && loaded.Some? ==> session == loaded.value.session)
    && (h != [] ==> Checkpoint(|h|, session, None) in checkpoints)
    && NoneFailed(checkpoints)
  }

  /** What the next request needs of the answers and checkpoints so far. */
  ghost predicate Carried(
    recovering: bool, record: string, loaded: Option<Stored>, checkpoints: seq<Checkpoint>, h: History,
    session: Session, stopped: bool)
  {
    && InSession(record, h, session) && Begun(loaded, checkpoints, h, session)
    && MayGoOn(recovering, h, stopped)
  }

  /**
   The run carries the stored session from its first request on, and after that only sessions that were
   stored before they were sent; after a failed checkpoint nothing is sent.
   */
  predicate Rooted(loaded: Option<Stored>, record: string, checkpoints: seq<Checkpoint>, h: History) {
    && (h != [] ==> loaded.Some? && h[0].sent == loaded.value.session)
    && (loaded.Some? ==> record == loaded.value.record)
    && (forall i :: 0 < i < |h| ==> Checkpoint(i, h[i].sent, None) in checkpoints)
    && (forall c :: c in checkpoints && c.error.Some? ==> c.upTo == |h|)
  }

  /** The alias has been read under another address. */
  predicate Moved(lookups: seq<Lookup>, id: int, address: string) {
    exists j :: 0 <= j < |lookups| && lookups[j].AliasRead? && lookups[j].id == id
                && NormalizeEmail(lookups[j].alias.address) != address
  }

  /** The alias has been read under this address. */
  predicate ReadAs(lookups: seq<Lookup>, id: int, address: string) {
    exists j :: 0 <= j < |lookups| && lookups[j].AliasRead? && lookups[j].id == id
                && NormalizeEmail(lookups[j].alias.address) == address
  }

  /** Some read of the account, perhaps this one, gave another identity, or one that is not iCloud's. */
  predicate Differs(lookups: seq<Lookup>, account: Account) {
    !SameIdentity(account, account) ||
    exists j :: 0 <= j < |lookups| && lookups[j].AccountRead? && !SameIdentity(account, lookups[j].account)
  }

  /** Every alias of a trusted listing is this mailbox's and can be named to Apple. */
  ghost predicate Usable(listing: Listing, email: string) {
    && WellFormed(listing.aliases) && Belongs(listing, email)
    && forall a :: a in listing.aliases ==> SameEmail(a.forwardTo, email) && RemoteId(a) != ""
  }

  /** Some listing was not all this mailbox's. */
  ghost predicate Odd(h: History, email: string) {
    exists i :: 0 <= i < |h| && Listed(h[i]) && !Usable(h[i].listing, email)
  }

  /** The answer is an error, or its session cannot be carried on. */
  predicate Unfit(loaded: Option<Stored>, r: Request) {
    r.error.Some? || loaded.None? || Prepared(loaded.value.record, r.returned, r.sent).None?
  }

  /** Every entry is this mailbox's and can be named to Apple. */
  predicate AllOurs(directory: Directory, email: string) {
    forall key :: key in directory ==> SameEmail(directory[key].forwardTo, email) && RemoteId(directory[key]) != ""
  }

  predicate CooldownAdded(before: seq<Cooldown>, after: seq<Cooldown>, attempt: int, requests: nat) {
    && |after| == |before| + 1 && before <= after
    && after[|before|].attempt == attempt && after[|before|].requestsBefore == requests
  }

  /**
   Everything outside the run: Apple, the local store, the clock and cancellation.
   Every answer is read off `script`, so a property of all scripts is one of all answers.
   */
  class World {
    const accountID: int  // the account whose group is run
    const script: nat -> Draw
    var cursor: nat
    var now: int
    var cancelled: bool
    ghost var requests: History
    ghost var removals: seq<Removal>
    ghost var cooldowns: seq<Cooldown>
    ghost var lookups: seq<Lookup>         // the successful reads of accounts and aliases
    ghost var loaded: Option<Stored>       // the session the run began with
    ghost var checkpoints: seq<Checkpoint>
    ghost var starts: seq<Start>
    ghost var cleanups: nat                // of expired sessions
    ghost var troubles: nat                // the calls that failed, and the answers that were not what was needed

    constructor (accountID: int, script: nat -> Draw, now: int)
      ensures this.accountID == accountID && this.script == script && this.now == now && !cancelled && troubles == 0
      ensures requests == [] && removals == [] && cooldowns == [] && checkpoints == [] && loaded.None?
      ensures starts == [] && lookups == []
    {
      this.accountID, this.script, this.now, cursor, cancelled, troubles := accountID, script, now, 0, false, 0;
      requests, removals, cooldowns, lookups, loaded, checkpoints, starts, cleanups := [], [], [], [], None, [], [], 0;
    }

    /** Time passes; cancellation, trouble and the logs stay. */
    twostate predicate Later()
      reads this
    {
      && now >= old(now) && (old(cancelled) ==> cancelled) && old(troubles) <= troubles
      && old(lookups) <= lookups && starts == old(starts)
    }

    /** The logs as they are, at the end of the last item's call. */
    ghost function Mark(): Start
      reads this
    {
      Start(0, |requests|, |lookups|, troubles)
    }

    ghost method StartItem(id: int)
      modifies this`starts
      ensures starts == old(starts) + [Start(id, |requests|, |lookups|, troubles)]
    {
      starts := starts + [Start(id, |requests|, |lookups|, troubles)];
    }

    method Next() returns (d: Draw)
      modifies this`cursor, this`now, this`cancelled
      ensures now >= old(now) && (old(cancelled) ==> cancelled)
    {
      d := script(cursor);
      cursor, now, cancelled := cursor + 1, now + d.elapsed, cancelled || d.cancel;
    }

    method ContextErr(ctx: Context) returns (err: Option<Err>)
      modifies this`cursor, this`now, this`cancelled, this`troubles
      ensures Later() && troubles == old(troubles) + One(err.Some?)
      ensures ctx.Job? ==> (err.Some? <==> cancelled)
    {
      var d := Next();
      err := if ctx.Job? then (if cancelled then Some(Sentinel(Canceled)) else None) else d.failure;
      troubles := troubles + One(err.Some?);
    }

    /** waitAliasDeletion: success means that the delay has passed. */
    method Wait(ctx: Context, delay: int) returns (err: Option<Err>)
      modifies this`cursor, this`now, this`cancelled, this`troubles
      ensures Later() && troubles == old(troubles) + One(err.Some?)
      ensures err.None? ==> now >= old(now) + delay
    {
      err := ContextErr(ctx);
      if err.Some? || delay <= 0 {
        return;
      }
      var d := Next();
      if d.failure.Some? {
        troubles := troubles + 1;
        return d.failure;
      }
      now := now + delay;
      err := ContextErr(ctx);
    }

    /** Troubled by an ID that no alias has, by a pending alias, and by one of another account or a new address. */
    method GetAlias(aliasID: int) returns (r: Result<LocalAlias, Err>)
      modifies this`cursor, this`now, this`cancelled, this`troubles, this`lookups
      ensures Later()
      ensures troubles == old(troubles) + One(|| aliasID < 1 || r.Fail?
                                              || r.value.accountID != accountID || Pending(r.value)
                                              || Moved(old(lookups), aliasID, NormalizeEmail(r.value.address)))
      ensures lookups == old(lookups) + (if r.Ok? then [AliasRead(aliasID, r.value)] else [])
    {
      var d := Next();
      if d.failure.Some? {
        troubles := troubles + 1;
        return Fail(d.failure.value);
      }
      troubles := troubles + One(|| aliasID < 1 || d.alias.accountID != accountID || Pending(d.alias)
                                 || Moved(lookups, aliasID, NormalizeEmail(d.alias.address)));
      lookups := lookups + [AliasRead(aliasID, d.alias)];
      r := Ok(d.alias);
    }

    /** Troubled by an identity that is not iCloud's, or not the one read before. */
    method GetAccount() returns (r: Result<Account, Err>)
      modifies this`cursor, this`now, this`cancelled, this`troubles, this`lookups
      ensures Later()
      ensures troubles == old(troubles) + One(r.Fail? || Differs(old(lookups), r.value))
      ensures lookups == old(lookups) + (if r.Ok? then [AccountRead(r.value)] else [])
    {
      var d := Next();
      if d.failure.Some? {
        troubles := troubles + 1;
        return Fail(d.failure.value);
      }
      troubles := troubles + One(Differs(lookups, d.account));
      lookups := lookups + [AccountRead(d.account)];
      r := Ok(d.account);
    }

    method LoadSession() returns (r: Result<Stored, Err>)
      modifies this`cursor, this`now, this`cancelled, this`troubles, this`loaded
      ensures Later() && troubles == old(troubles) + One(r.Fail?)
      ensures loaded == if r.Ok? then Some(r.value) else old(loaded)
    {
      var d := Next();
      if d.failure.Some? {
        troubles := troubles + 1;
        return Fail(d.failure.value);
      }
      loaded := Some(Stored(d.record, d.session));
      r := Ok(Stored(d.record, d.session));
    }

    /** The durable checkpoint of a session, which may fail. */
    method SaveSession(session: Session) returns (err: Option<Err>)
      modifies this`cursor, this`now, this`cancelled, this`troubles, this`checkpoints
      ensures Later() && troubles == old(troubles) + One(err.Some?)
      ensures checkpoints == old(checkpoints) + [Checkpoint(|requests|, session, err)]
    {
      var d := Next();
      err := d.failure;
      checkpoints := checkpoints + [Checkpoint(|requests|, session, err)];
      troubles := troubles + One(err.Some?);
    }

    /** The cleanup of an expired session, which may fail. */
    method ExpireSession() returns (err: Option<Err>)
      modifies this`cursor, this`now, this`cancelled, this`troubles, this`cleanups
      ensures cleanups == old(cleanups) + 1
      ensures Later() && troubles == old(troubles) + One(err.Some?)
    {
      var d := Next();
      err := d.failure;
      cleanups := cleanups + 1;
      troubles := troubles + One(err.Some?);
    }

    /**
     One Apple request, and whatever Apple answers. Troubled by an error, and by a session that cannot be
     carried on.
     */
    method Send(op: Operation, target: string, sent: Session, stamp: int,
                ghost address: string, ghost owner: string, ghost stopped: bool)
      returns (error: Option<Err>, returned: Session, listing: Listing)
      requires stamp <= now
      modifies this`cursor, this`now, this`cancelled, this`troubles, this`requests
      ensures Later()
      ensures |requests| == |old(requests)| + 1 && requests[..|old(requests)|] == old(requests)
      ensures var r := requests[|old(requests)|];
              && r.op == op && r.target == target && r.address == address && r.owner == owner
              && r.stopped == stopped && r.late == old(cancelled)
              && r.read == ReadNow(accountID, starts, lookups, address)
              && r.sent == sent && r.stamp == stamp && r.answered == now
              && r.error == error && r.returned == returned && r.listing == listing
              && troubles == old(troubles) + One(Unfit(loaded, r))
    {
      ghost var late := cancelled;
      var d := Next();
      error, returned, listing := d.failure, d.session, d.listing;
      ghost var read := ReadNow(accountID, starts, lookups, address);
      ghost var r := Request(op, target, address, owner, stopped, late, read, sent, stamp, now, error, returned,
                             listing, d.before, d.after);
      requests := requests + [r];
      troubles := troubles + One(Unfit(loaded, r));
    }

    /** deleteLocalAliasAfterApple: the local publication step, which may itself fail. */
    method RemoveLocal(aliasID: int, ghost address: string) returns (err: Option<Err>)
      requires starts != []
      modifies this`cursor, this`now, this`cancelled, this`troubles, this`removals
      ensures Later() && troubles == old(troubles) + One(err.Some?)
      ensures removals == old(removals) +
                [Removal(aliasID, address, |starts| - 1, starts[|starts| - 1].requests, |requests|,
                         ReadNow(accountID, starts, lookups, address))]
    {
      var d := Next();
      removals := removals + [Removal(aliasID, address, |starts| - 1, starts[|starts| - 1].requests, |requests|,
                                      ReadNow(accountID, starts, lookups, address))];
      err := d.failure;
      troubles := troubles + One(err.Some?);
    }
  }

  class Batch {
    const world: World
    const accountID: int
    const recovering: bool        // DeleteAliases with throttle recovery, never a single deletion
    var account: Account
    var record: string            // the Apple ID of the stored session record
    var session: Session
    var ready: bool
    var stopped: Option<Err>
    var directory: Directory
    var valid: bool
    // throttle recovery
    var aliasID: int
    var address: string
    var attempts: int
    var lastRequest: int
    var requested: bool
    var nextServerDelay: int
    var lastError: Option<Err>
    ghost var halted: bool        // a wait was abandoned or an answer was fatal: nothing more is sent

    constructor (world: World, accountID: int, recovering: bool)
      requires world.requests == [] && world.removals == [] && world.cooldowns == []
      requires world.loaded.None? && world.accountID == accountID && world.checkpoints == []
      ensures this.world == world && this.recovering == recovering && this.accountID == accountID
      ensures Valid() && Started() && attempts == 0 && stopped.None? && !ready
    {
      hide LogKept, Rooted, Carried, Validated;
      EmptyLog(recovering, "");
      EmptyTrack(recovering, world.loaded, Session(0, "", "", false));
      this.world, this.accountID, this.recovering := world, accountID, recovering;
      account, record, session := Account("", "", false), "", Session(0, "", "", false);
      ready, stopped, directory, valid := false, None, map[], false;
      aliasID, address, attempts, lastRequest, requested := 0, "", 0, 0, false;
      nextServerDelay, lastError, halted := 0, None, false;
    }

    ghost predicate Sound()
      reads this, world
    {
      && Steady()
      && (!halted ==> OnTrack())
      && (!halted && recovering ==>
            Paced(world.requests, world.cooldowns, world.now, nextServerDelay, requested, lastRequest))
    }

    ghost predicate OnTrack()
      reads this, world
    {
      Carried(recovering, record, world.loaded, world.checkpoints, world.requests, session, stopped.Some?)
    }

    lemma TrackStops()
      ensures Carried(recovering, record, world.loaded, world.checkpoints, world.requests, session, false) ==>
                Carried(recovering, record, world.loaded, world.checkpoints, world.requests, session, true)
    {
      CarriedStopped(recovering, record, world.loaded, world.checkpoints, world.requests, session);
    }

    ghost predicate Steady()
      reads this, world
    {
      && 0 <= attempts <= MAX_RECOVERIES && |world.cooldowns| == attempts
      && (!ready ==> !valid) && (ready ==> world.loaded.Some? && Validated(world.requests))
      && Rooted(world.loaded, record, world.checkpoints, world.requests) && Heard(world.requests, world.now)
      && (halted ==> world.cancelled || stopped.Some?) && (halted || stopped.Some? ==> world.troubles > 0)
      && accountID == world.accountID && (ready || world.requests != [] ==> Known()) && Aware()
      && (LastStopped(world.requests) ==> stopped.Some?)
      && LogKept(recovering, record, world.requests, world.cooldowns, world.removals)
    }

    /** The group is the world's, and its identity was read. */
    ghost predicate Known()
      reads this, world
    {
      accountID == world.accountID && AccountRead(account) in world.lookups
    }

    /** The item's address was read for it. */
    ghost predicate Aware()
      reads this, world
    {
      recovering && aliasID >= 1 ==> ReadAs(world.lookups, aliasID, address)
    }

    /** A cache that is called valid is what Apple's answers amount to. */
    ghost predicate Coherent()
      reads this, world
    {
      valid ==>
        && Settled(world.requests) && directory == Observed(world.requests)
        && (AllOurs(directory, account.email) || Odd(world.requests, account.email))
    }

    /** Every throttled answer has been waited out, or the group has ended. */
    ghost predicate Cooled()
      reads this, world
    {
      recovering && !halted && stopped.None? ==> Rationed(world.requests, attempts, world.now)
    }

    /** At most the last answer is a throttle that has not been recovered from. */
    ghost predicate Charged()
      reads this, world
    {
      recovering && !halted && stopped.None? ==> Throttles(world.requests) <= attempts + 1
    }

    ghost predicate Kept()
      reads this, world
    {
      Sound() && Coherent() && 0 <= attempts <= MAX_RECOVERIES
    }

    ghost predicate Valid()
      reads this, world
    {
      Kept() && Cooled() && 0 <= attempts <= MAX_RECOVERIES
    }

    ghost predicate Started()
      reads this, world
    {
      ready || stopped.Some? || world.requests == []
    }

    /** The validation ahead of the first item, once it has been tried. */
    ghost function Opening(): nat
      reads this
    {
      if ready || stopped.Some? then 1 else 0
    }

    /** The identity and the address that the requests of an item are checked against were read. */
    ghost predicate Tracks()
      reads this, world
    {
      Known() && (recovering ==> ReadAs(world.lookups, aliasID, address))
    }

    /** A step fails only on a trouble of its own, and the logs stay. */
    twostate predicate Blamed(failed: bool)
      reads world
    {
      && old(world.troubles) <= world.troubles && (failed ==> world.troubles > old(world.troubles))
      && old(world.lookups) <= world.lookups && world.starts == old(world.starts)
    }

    ghost predicate IsOdd()
      reads this, world
    {
      Odd(world.requests, account.email)
    }

    /** Something has gone wrong in the current item's call, or Apple's listing was not all this mailbox's. */
    ghost predicate Cause()
      reads this, world
    {
      || (world.starts != [] && world.troubles > world.starts[|world.starts| - 1].troubles)
      || IsOdd()
    }

    twostate predicate Excused(failed: bool)
      reads this, world
    {
      && Blamed(false) && (old(Cause()) || failed ==> Cause()) && (old(IsOdd()) ==> IsOdd())
      && (old(ready) ==> account == old(account))
    }

    /** The current item is `id`. */
    ghost predicate At(id: int)
      reads this, world
    {
      && ItemIs(world.starts, id)
      && var start := world.starts[|world.starts| - 1];
      && start.requests <= |world.requests| && start.lookups <= |world.lookups| && start.troubles <= world.troubles
    }

    /** The alias of `key` was read for item `id`, in its own call. */
    ghost predicate Current(id: int, key: string)
      reads this, world
    {
      ItemIs(world.starts, id) && ReadNow(world.accountID, world.starts, world.lookups, key)
    }

    // ------------------------------------------------------------ throttle recovery

    predicate CanRecover(err: Err)
      reads this
    {
      recovering && stopped.None? && CodeOf(err) == Some(RateLimitedCode)
    }

    method ReportWait(ctx: Context, delay: int) returns (err: Option<Err>)
      requires ctx.Job?
      modifies this`stopped, this`halted, world`cursor, world`troubles, world`now, world`cancelled
      ensures world.Later()
      ensures err.None? ==> world.now >= old(world.now) + delay && stopped == old(stopped) && halted == old(halted)
      ensures err.Some? ==> halted && (world.cancelled || stopped.Some?) && world.troubles > old(world.troubles)
      ensures old(stopped).Some? ==> stopped == old(stopped)
    {
      err := world.ContextErr(ctx);
      if err.Some? {
        halted := true;
        return;
      }
      err := world.Wait(ctx, delay);
      if err.Some? {
        halted := true;
        var contextErr := world.ContextErr(ctx);
        if contextErr.None? && stopped.None? {
          stopped := err;
        }
      }
    }

    /** Recovery permits three cooldowns for the whole group; the fourth throttle stops it. */
    method RecoverThrottle(cause: Err) returns (err: Option<Err>)
      requires Sound() && Charged() && recovering && stopped.None? && world.troubles > 0
      modifies this`attempts, this`nextServerDelay, this`valid, this`stopped, this`halted
      modifies world`cursor, world`troubles, world`now, world`cancelled, world`cooldowns
      ensures Sound() && Cooled() && world.Later()
      ensures old(attempts) <= attempts <= MAX_RECOVERIES
      ensures valid ==> old(valid)
      ensures err.None? ==> attempts == old(attempts) + 1 && !valid && !halted && stopped.None?
      ensures err.Some? ==> stopped.Some? || (halted && world.cancelled)
      ensures old(attempts) == MAX_RECOVERIES ==>
                && err.Some? && attempts == old(attempts)
                && (|| stopped == Some(Coded(BatchDeferredCode, BatchDeferred, Some(cause)))
                    || (halted && world.cancelled))
      ensures world.requests == old(world.requests) && old(world.cooldowns) <= world.cooldowns
      ensures if attempts == old(attempts) then world.cooldowns == old(world.cooldowns)
              else CooldownAdded(old(world.cooldowns), world.cooldowns, attempts, |world.requests|)
    {
      hide LogKept, Rested, Carried, Rooted, Backoff, CodeOf, Rationed, LastStopped;
      hide Validated, ReadAs, Throttles, SameIdentity;
      RestedLater(world.requests, world.cooldowns);
      err := world.ContextErr(Job);
      if err.Some? {
        halted := true;
        return;
      }
      if attempts >= MAX_RECOVERIES {
        TrackStops();
        stopped := Some(Coded(BatchDeferredCode, BatchDeferred, Some(cause)));
        return Some(cause);
      }
      err := WaitCooldown();
    }

    /** One more cooldown, in full. */
    method WaitCooldown() returns (err: Option<Err>)
      requires Sound() && Charged() && recovering && !halted && stopped.None? && world.troubles > 0
      requires attempts < MAX_RECOVERIES
      modifies this`attempts, this`nextServerDelay, this`valid, this`stopped, this`halted
      modifies world`cursor, world`troubles, world`now, world`cancelled, world`cooldowns
      ensures Sound() && Cooled() && world.Later() && !valid && attempts == old(attempts) + 1
      ensures err.None? ==> !halted && stopped.None?
      ensures err.Some? ==> stopped.Some? || (halted && world.cancelled)
      ensures CooldownAdded(old(world.cooldowns), world.cooldowns, attempts, |world.requests|)
    {
      hide LogKept, Rested, Carried, Rooted, Backoff, Rationed, LastStopped, Validated, ReadAs, Throttles;
      var delay := BeginCooldown();
      RestedLater(world.requests, world.cooldowns);
      ghost var then_ := world.now;
      err := ReportWait(Job, delay);
      if err.None? {
        WaitPays(world.requests, attempts, then_, world.now);
      }
    }

    /** The next cooldown takes in what is left of the server's own delay. */
    method BeginCooldown() returns (delay: int)
      requires Sound() && Charged() && recovering && !halted && stopped.None? && attempts < MAX_RECOVERIES
      requires world.troubles > 0
      modifies this`attempts, this`nextServerDelay, this`valid, world`cooldowns
      ensures Steady() && OnTrack()
      ensures attempts == old(attempts) + 1 && nextServerDelay == 0 && !valid
      ensures delay == Max(Backoff(attempts), old(nextServerDelay)) && Throttles(world.requests) <= attempts
      ensures Rested(world.requests, world.cooldowns, world.now + delay, world.now + delay)
      ensures requested <==> world.requests != []
      ensures requested ==> lastRequest == world.requests[|world.requests| - 1].stamp
      ensures CooldownAdded(old(world.cooldowns), world.cooldowns, attempts, |world.requests|)
    {
      hide WellRun, RemovalsConfirmed, Carried, ThrottlesKept, Rooted, Throttles, LastStopped, Heard;
      attempts := attempts + 1;
      delay := Max(Backoff(attempts), nextServerDelay);
      nextServerDelay, valid := 0, false;
      world.cooldowns := world.cooldowns + [Cooldown(attempts, world.now, |world.requests|)];
    }

    method WaitServerDelay(ctx: Context) returns (err: Option<Err>)
      requires Sound() && !halted
      requires recovering && nextServerDelay > 0 ==> ctx.Job?
      modifies this`nextServerDelay, this`stopped, this`halted, world`cursor, world`troubles, world`now, world`cancelled
      ensures Sound() && world.Later() && (old(Cooled()) ==> Cooled())
      ensures err.None? ==> !halted && stopped == old(stopped) && (recovering ==> nextServerDelay <= 0)
      ensures err.Some? ==> halted && (world.cancelled || stopped.Some?) && world.troubles > old(world.troubles)
      ensures old(stopped).Some? ==> stopped == old(stopped)
    {
      hide LogKept, Carried, Rested, Rationed, SameIdentity;
      RestedLater(world.requests, world.cooldowns);
      RationedLater(world.requests, attempts);
      if !recovering || nextServerDelay <= 0 {
        return None;
      }
      var delay := nextServerDelay;
      nextServerDelay := 0;
      err := ReportWait(ctx, delay);
    }

    // ------------------------------------------------------------ one request

    /** The latest read shows another identity, or the item's alias with another account or address. */
    predicate ShowsChange(before: seq<Lookup>, after: seq<Lookup>)
      reads this
    {
      |after| > |before| && before <= after &&
      match after[|after| - 1]
      case AccountRead(current) => !SameIdentity(current, account)
      case AliasRead(_, alias) => alias.accountID != accountID || NormalizeEmail(alias.address) != address
    }

    /** A long cooldown must not make the checks at the start of the item stale. */
    method RecheckIdentity() returns (err: Option<Err>)
      requires recovering && Tracks()
      modifies this`stopped, world`cursor, world`troubles, world`now, world`cancelled, world`lookups
      ensures world.Later()
      ensures err.None? ==> Rechecked(old(world.lookups), world.lookups, accountID, account, aliasID, address)
      ensures (err.Some? ==> world.troubles > old(world.troubles)) && old(world.lookups) <= world.lookups
      ensures stopped == old(stopped) || (err.Some? && stopped.Some?)
      ensures ShowsChange(old(world.lookups), world.lookups) ==> stopped == Some(Changed())
    {
      hide NormalizeEmail, SameIdentity, Trim;
      var current := world.GetAccount();
      if current.Fail? {
        return Some(current.error);
      }
      if !SameIdentity(current.value, account) {
        stopped := Some(Changed());
        return stopped;
      }
      var alias := world.GetAlias(aliasID);
      if alias.Fail? {
        return Some(alias.error);
      }
      if alias.value.accountID != accountID || NormalizeEmail(alias.value.address) != address {
        stopped := Some(Changed());
        return stopped;
      }
      if Pending(alias.value) {
        return Some(NotConfirmedYet());
      }
      err := None;
    }

    /** Waits and checks are over: the next request carries this session and is due at `lastRequest`. */
    ghost predicate Cleared()
      reads this, world
    {
      && Steady() && !halted && OnTrack()
      && (recovering ==>
            && Rested(world.requests, world.cooldowns, lastRequest, lastRequest)
            && SpacedFrom(world.requests, lastRequest) && requested && lastRequest <= world.now
            && (stopped.None? ==> Due(world.requests, lastRequest)))
    }

    /** The waits ahead of a request: the server's hint, then a second since the last request. */
    method Pace(ctx: Context) returns (err: Option<Err>)
      requires Sound() && Cooled() && !halted && recovering
      requires nextServerDelay > 0 ==> ctx.Job?
      modifies this`nextServerDelay, this`stopped, this`halted, world`cursor, world`troubles, world`now, world`cancelled
      ensures Sound() && Cooled() && world.Later() && Blamed(err.Some?)
      ensures err.None? ==>
                && !halted && stopped == old(stopped) && nextServerDelay <= 0
                && SpacedFrom(world.requests, world.now)
      ensures old(stopped).Some? ==> stopped.Some?
      ensures err.Some? && stopped.None? && halted ==> world.cancelled
    {
      hide LogKept, Rested, Carried, LastStopped, Rationed, Rooted;
      RestedLater(world.requests, world.cooldowns);
      RationedLater(world.requests, attempts);
      err := WaitServerDelay(ctx);
      if err.Some? {
        return;
      }
      if requested {
        err := world.Wait(ctx, SECOND - (world.now - lastRequest));
      }
    }

    /** Cancellation, waits and fresh identity checks ahead of every request. */
    method BeforeRequest(ctx: Context) returns (err: Option<Err>)
      requires Sound() && Cooled() && !halted && Tracks()
      requires recovering && nextServerDelay > 0 ==> ctx.Job?
      modifies this`nextServerDelay, this`stopped, this`halted, this`lastRequest, this`requested
      modifies world`cursor, world`troubles, world`now, world`cancelled, world`lookups
      ensures world.Later() && Cooled() && Blamed(err.Some?)
      ensures err.Some? ==> Sound()
      ensures err.None? ==> Cleared() && stopped == old(stopped) && (ctx.Job? ==> !world.cancelled)
      ensures err.None? && recovering ==>
                && Rechecked(old(world.lookups), world.lookups, accountID, account, aliasID, address)
                && lastRequest >= old(world.now)
      ensures old(stopped).Some? ==> stopped.Some?
      ensures err.Some? && stopped.None? && halted ==> world.cancelled
    {
      hide Sound, Cooled, Cleared, Rechecked, SameIdentity;
      err := world.ContextErr(ctx);
      StillSound();
      if err.Some? {
        return;
      }
      if !recovering {
        ClearedAtOnce();
        return;
      }
      err := Pace(ctx);
      if err.Some? {
        return;
      }
      err := Recheck(ctx);
      if err.None? {
        Stamp();
      }
    }

    /** The identity checks, and cancellation once more. */
    method Recheck(ctx: Context) returns (err: Option<Err>)
      requires Sound() && Cooled() && recovering && Tracks()
      modifies this`stopped
      modifies world`cursor, world`troubles, world`now, world`cancelled, world`lookups
      ensures Sound() && Cooled() && world.Later() && Blamed(err.Some?)
      ensures err.None? ==>
                && stopped == old(stopped) && (ctx.Job? ==> !world.cancelled)
                && Rechecked(old(world.lookups), world.lookups, accountID, account, aliasID, address)
      ensures old(stopped).Some? ==> stopped.Some?
    {
      hide Sound, Cooled, Rechecked, SameIdentity;
      err := RecheckIdentity();
      if err.None? {
        err := world.ContextErr(ctx);
      }
      StillSound();
    }

    /** Time passes, and the group may be stopped. */
    twostate lemma StillSound()
      requires old(Sound()) && world.Later() && (stopped != old(stopped) ==> world.troubles > 0)
      requires unchanged(`account, `aliasID, `address)
      requires unchanged(`record, `session, `ready, `valid, `attempts, `halted)
      requires unchanged(`lastRequest, `requested, `nextServerDelay)
      requires unchanged(world`requests, world`removals, world`cooldowns, world`loaded, world`checkpoints)
      requires stopped == old(stopped) || stopped.Some?
      ensures Sound() && (old(Cooled()) ==> Cooled())
    {
      hide LogKept, Rested, Carried, Rationed, Rooted, LastStopped;
      CarriedStopped(recovering, record, world.loaded, world.checkpoints, world.requests, session);
      ReadAsStays(old(world.lookups), world.lookups, aliasID, address);
      RestedLater(world.requests, world.cooldowns);
      RationedLater(world.requests, attempts);
    }

    lemma ClearedAtOnce()
      requires Sound() && !recovering && !halted
      ensures Cleared()
    {
      hide LogKept, Carried, Rooted, LastStopped;
    }

    method Stamp()
      requires Sound() && Cooled() && recovering && !halted && nextServerDelay <= 0
      requires SpacedFrom(world.requests, world.now)
      modifies this`lastRequest, this`requested
      ensures Cleared() && Cooled() && lastRequest == world.now
    {
      hide LogKept, Rested, Carried, Rooted, LastStopped, Due;
      RestedLater(world.requests, world.cooldowns);
      lastRequest := world.now;
      requested := true;
    }

    /** The stored session is cleaned up; the group has ended, whether that succeeds or not. */
    method Expire(mapped: Err) returns (result: Err)
      requires world.troubles > 0
      modifies this`valid, this`session, this`stopped, this`halted
      modifies world`cursor, world`troubles, world`now, world`cancelled, world`cleanups
      ensures world.Later()
      ensures !valid && stopped.Some? && halted && world.cleanups == old(world.cleanups) + 1
      ensures || (&& result == mapped
                  && stopped == Some(Coded(LoginRequiredCode, LoginRequired, Some(Sentinel(NotFound)))))
              || (stopped == Some(result) && result.Coded? && result.code == SessionExpiredCode)
    {
      valid, halted := false, true;
      session := Session(0, "", "", false);
      var failure := world.ExpireSession();
      if failure.None? || Is(failure.value, NotFound) {
        stopped := Some(Coded(LoginRequiredCode, LoginRequired, Some(Sentinel(NotFound))));
        return mapped;
      }
      result := Coded(SessionExpiredCode, SessionExpired, Some(Joined([mapped, Wrapped(failure.value)])));
      stopped := Some(result);
    }

    /**
     Every answer, good or bad, advances the session and its durable checkpoint. It is fatal exactly if the
     session has expired, cannot be carried on, or could not be stored.
     */
    method AcceptResponse(returned: Session, remoteErr: Option<Err>) returns (mapped: Option<Err>, fatal: bool)
      requires remoteErr.Some? || Prepared(record, returned, session).None? ==> world.troubles > 0
      modifies this`session, this`stopped, this`valid, this`halted, this`nextServerDelay, this`lastError
      modifies world`cursor, world`troubles, world`now, world`cancelled, world`checkpoints, world`cleanups
      ensures world.Later()
      ensures mapped.Some? ==>
                || remoteErr.Some? || Prepared(record, returned, old(session)).None?
                || world.troubles > old(world.troubles)
      ensures var prepared := Prepared(record, returned, old(session));
              if Expires(recovering, remoteErr) || prepared.None?
              then fatal && world.checkpoints == old(world.checkpoints)
              else
                && SavedOnce(old(world.checkpoints), world.checkpoints, |world.requests|, prepared.value)
                && (fatal <==> world.checkpoints[|old(world.checkpoints)|].error.Some?)
      ensures Expires(recovering, remoteErr) ==> !valid
      ensures world.cleanups == old(world.cleanups) + One(Expires(recovering, remoteErr))
      ensures fatal ==> mapped.Some? && stopped.Some? && halted
      ensures valid ==> old(valid)
      ensures old(stopped).Some? ==> stopped.Some?
      ensures !fatal ==>
                && halted == old(halted) && valid == old(valid)
                && Prepared(record, returned, old(session)) == Some(session)
                && mapped == (if remoteErr.None? then None else Some(Classify(recovering, remoteErr.value)))
                && nextServerDelay == (if recovering then Hint(remoteErr) else old(nextServerDelay))
                && stopped == (if Blocks(recovering, remoteErr) then mapped else old(stopped))
    {
      hide Is, Classify, Prepared, Hint, EndsSession, RefusesCredentials, AsksForAction, ThrottlesAccount, CodeOf;
      if remoteErr.Some? { ClassifyMeans(recovering, remoteErr.value); }
      mapped := if remoteErr.None? then None else Some(Classify(recovering, remoteErr.value));
      if mapped.Some? && Is(mapped.value, SessionExpired) {
        var result := Expire(mapped.value);
        return Some(result), true;
      }
      var prepared := Prepared(record, returned, session);
      var err := Some(NotPrepared(record, returned, session));
      if prepared.Some? {
        session := prepared.value;
        err := world.SaveSession(session);
      }
      if err.Some? {
        stopped := Some(Joined([err.value] + if mapped.Some? then [mapped.value] else []));
        halted := true;
        return stopped, true;
      }
      if recovering {
        nextServerDelay := Hint(remoteErr);
        lastError := remoteErr;
      }
      if mapped.Some? && ((Is(mapped.value, RateLimited) && !recovering) || Is(mapped.value, CredentialsInvalid)
                          || Is(mapped.value, AccountActionRequired)) {
        stopped := mapped;
      }
      fatal := false;
    }

    /** The cached entry that a mutation of `key` is based on. */
    ghost predicate MayMutate(op: Operation, key: string, target: string)
      reads this, world
    {
      && Coherent() && valid && stopped.None?
      && ReadNow(world.accountID, world.starts, world.lookups, key) && key in directory
      && RemoteId(directory[key]) == target != ""
      && SameEmail(directory[key].forwardTo, account.email)
      && (directory[key].isActive <==> op.Deactivate?)
    }

    /** The waits and checks leave what a mutation is based on as it was. */
    method BeforeMutation(ctx: Context, op: Operation, ghost target: string, ghost key: string)
      returns (err: Option<Err>)
      requires Sound() && Cooled() && !halted && Tracks()
      requires recovering && nextServerDelay > 0 ==> ctx.Job?
      requires IsMutation(op) ==> MayMutate(op, key, target)
      modifies this`nextServerDelay, this`stopped, this`halted, this`lastRequest, this`requested
      modifies world`cursor, world`troubles, world`now, world`cancelled, world`lookups
      ensures world.Later() && Cooled() && Blamed(err.Some?)
      ensures err.Some? ==> Sound()
      ensures err.None? ==> Cleared() && stopped == old(stopped) && (ctx.Job? ==> !world.cancelled)
      ensures err.None? && IsMutation(op) ==> MayMutate(op, key, target)
      ensures err.None? && recovering ==>
                Rechecked(old(world.lookups), world.lookups, accountID, account, aliasID, address)
      ensures old(stopped).Some? ==> stopped.Some?
    {
      hide Sound, Cooled, Cleared, Rechecked, Observed, Settled, NormalizeEmail, Trim, SameIdentity, SameEmail, AllOurs;
      err := BeforeRequest(ctx);
      if err.None? && IsMutation(op) {
        ReadNowStays(world.accountID, world.starts, old(world.lookups), world.lookups, key);
      }
      hide ReadNow;
    }

    /** beforeRequest, the client call and acceptResponse, which always follow each other. */
    method Exchange(ctx: Context, op: Operation, target: string, ghost key: string)
      returns (refused: Option<Err>, mapped: Option<Err>, fatal: bool, listing: Listing)
      requires Sound() && Cooled() && !halted && !LastStopped(world.requests) && Tracks() && world.loaded.Some?
      requires recovering && nextServerDelay > 0 ==> ctx.Job?
      requires stopped.Some? || ctx.Detached? ==> op.List?
      requires if op.Validate? then MayValidate(recovering, world.requests) else ready
      requires IsMutation(op) ==> MayMutate(op, key, target)
      modifies this`nextServerDelay, this`stopped, this`halted, this`lastRequest, this`requested
      modifies this`session, this`valid, this`lastError
      modifies world`cursor, world`troubles, world`now, world`cancelled, world`lookups
      modifies world`requests, world`checkpoints, world`cleanups
      ensures Sound() && world.Later() && Blamed(refused.Some? || mapped.Some?)
      ensures valid ==> old(valid)
      ensures old(stopped).Some? ==> stopped.Some?
      ensures refused.Some? ==> world.requests == old(world.requests)
      ensures refused.None? ==>
                && |world.requests| == |old(world.requests)| + 1
                && old(world.requests) <= world.requests
                && var r := world.requests[|old(world.requests)|];
                && r.op == op && r.target == target && r.address == key && r.listing == listing
                && (r.stopped <==> old(stopped).Some?)
                && (mapped.None? ==> r.error.None? && !fatal && stopped == old(stopped))
                && (mapped.Some? && !fatal ==> r.error.Some? && (CanRecover(mapped.value) ==> Throttled(r)))
      ensures fatal ==> mapped.Some? && stopped.Some? && halted
      ensures refused.None? && !fatal ==> !halted && valid == old(valid)
      ensures Charged() && (refused.Some? || mapped.None? || !CanRecover(mapped.value) ==> Cooled())
      ensures refused.None? && recovering ==>
                Rechecked(old(world.lookups), world.lookups, accountID, account, aliasID, address)
    {
      hide Sound, Cooled, Cleared, Charged, Rechecked, Observed, Settled, NormalizeEmail, Trim, LastStopped, CodeOf;
      hide SameIdentity, SameEmail, AllOurs, Odd, ReadAs, MayValidate, Throttled, MayMutate;
      mapped, fatal, listing := None, false, Listing([], "", []);
      refused := BeforeMutation(ctx, op, target, key);
      if refused.Some? {
        CooledIsCharged();
        return;
      }
      mapped, fatal, listing := Converse(op, target, key);
    }

    /** The request is due: it is sent, and its answer is taken. */
    method Converse(op: Operation, target: string, ghost key: string)
      returns (mapped: Option<Err>, fatal: bool, listing: Listing)
      requires Cleared() && Cooled() && !LastStopped(world.requests) && world.loaded.Some? && Known()
      requires stopped.Some? || world.cancelled ==> op.List?
      requires if op.Validate? then MayValidate(recovering, world.requests) else ready
      requires IsMutation(op) ==> MayMutate(op, key, target)
      modifies this`session, this`stopped, this`valid, this`halted, this`nextServerDelay, this`lastError
      modifies world`cursor, world`troubles, world`now, world`cancelled
      modifies world`requests, world`checkpoints, world`cleanups
      ensures Sound() && world.Later() && Blamed(mapped.Some?)
      ensures valid ==> old(valid)
      ensures old(stopped).Some? ==> stopped.Some?
      ensures |world.requests| == |old(world.requests)| + 1 && old(world.requests) <= world.requests
      ensures var r := world.requests[|old(world.requests)|];
              && r.op == op && r.target == target && r.address == key && r.listing == listing
              && (r.stopped <==> old(stopped).Some?)
              && (mapped.None? ==> r.error.None? && !fatal && stopped == old(stopped))
              && (mapped.Some? && !fatal ==> r.error.Some? && (CanRecover(mapped.value) ==> Throttled(r)))
      ensures fatal ==> mapped.Some? && stopped.Some? && halted
      ensures !fatal ==> !halted && valid == old(valid)
      ensures Charged() && (mapped.None? || !CanRecover(mapped.value) ==> Cooled())
    {
      hide LogKept, Paced, Rested, Carried, Observed, Settled, NormalizeEmail, Trim, Prepared, Hint, Validated;
      hide Classify, CodeOf, Rationed, Throttled, Throttles, Rooted, Due, SpacedFrom, SameIdentity, Usable;
      hide Expires, Blocks, NoneFailed, NoneOpen, Heard;
      CarriedMeans(recovering, record, world.loaded, world.checkpoints, world.requests, session, stopped.Some?);
      var remoteErr, returned;
      remoteErr, returned, listing := Transmit(op, target, key);
      mapped, fatal := TakeAnswer(returned, remoteErr);
    }

    /** acceptResponse for the request just sent, and what it means for the next one. */
    method TakeAnswer(returned: Session, remoteErr: Option<Err>) returns (mapped: Option<Err>, fatal: bool)
      requires Steady() && !halted && NoneOpen(world.requests, world.cooldowns) && NoneFailed(world.checkpoints)
      requires world.requests != []
      requires remoteErr.Some? || Prepared(record, returned, session).None? ==> world.troubles > 0
      requires var r := world.requests[|world.requests| - 1];
               && r.sent == session && r.error == remoteErr && r.returned == returned && r.answered <= world.now
               && (recovering ==> requested && lastRequest == r.stamp)
               && (recovering && stopped.None? ==>
                     && Throttles(world.requests) <= attempts + 1
                     && (!Throttled(r) ==> Rationed(world.requests, attempts, world.now)))
      modifies this`session, this`stopped, this`valid, this`halted, this`nextServerDelay, this`lastError
      modifies world`cursor, world`troubles, world`now, world`cancelled, world`checkpoints, world`cleanups
      ensures Sound() && world.Later()
      ensures Blamed(mapped.Some? && remoteErr.None? && Prepared(record, returned, old(session)).Some?)
      ensures valid ==> old(valid)
      ensures old(stopped).Some? ==> stopped.Some?
      ensures mapped.None? ==> remoteErr.None? && !fatal && stopped == old(stopped)
      ensures mapped.Some? && !fatal ==>
                remoteErr.Some? && (CanRecover(mapped.value) ==> Throttled(world.requests[|world.requests| - 1]))
      ensures fatal ==> mapped.Some? && stopped.Some? && halted
      ensures !fatal ==> !halted && valid == old(valid)
      ensures Charged() && (mapped.None? || !CanRecover(mapped.value) ==> Cooled())
    {
      hide LogKept, Paced, Carried, Prepared, Hint, Validated, Classify, CodeOf, Rationed, Throttled, Throttles;
      hide ReadAs, LastStopped;
      hide Rooted, SameIdentity, Expires, NoneFailed, NoneOpen, Is, Trim, SameEmail, HasState;
      hide EndsSession, RefusesCredentials, AsksForAction, ThrottlesAccount, Recoverable, IsRateLimited;
      ghost var r := world.requests[|world.requests| - 1];
      ThrottledIsRateLimited(r);
      RationedLater(world.requests, attempts);
      ghost var checkpoints := world.checkpoints;
      mapped, fatal := AcceptResponse(returned, remoteErr);
      RootedStays(world.loaded, record, checkpoints, world.checkpoints, world.requests);
      if !fatal {
        AnswerTaken(recovering, record, world.loaded, checkpoints, world.checkpoints, world.requests, session,
                    stopped.Some?);
        if recovering { AnswerPaced(world.requests, world.cooldowns, world.now); }
      }
    }

    /** One request, in the session, and its place in the log. */
    method Transmit(op: Operation, target: string, ghost key: string)
      returns (remoteErr: Option<Err>, returned: Session, listing: Listing)
      requires Cleared() && Cooled() && !LastStopped(world.requests) && world.loaded.Some? && Known()
      requires stopped.Some? || world.cancelled ==> op.List?
      requires if op.Validate? then MayValidate(recovering, world.requests) else ready
      requires IsMutation(op) ==> MayMutate(op, key, target)
      modifies world`cursor, world`troubles, world`now, world`cancelled, world`requests
      ensures world.Later()
      ensures Steady() && NoneOpen(world.requests, world.cooldowns)
      ensures remoteErr.Some? || Prepared(record, returned, session).None? ==> world.troubles > old(world.troubles)
      ensures |world.requests| == |old(world.requests)| + 1 && old(world.requests) <= world.requests
      ensures var r := world.requests[|old(world.requests)|];
              && r.op == op && r.target == target && r.address == key && r.listing == listing
              && r.sent == session && r.error == remoteErr && r.returned == returned
              && (r.stopped <==> stopped.Some?) && (recovering ==> r.stamp == lastRequest) && r.answered == world.now
              && (recovering && stopped.None? ==>
                    && Throttles(world.requests) <= attempts + 1
                    && (!Throttled(r) ==> Rationed(world.requests, attempts, world.now)))
    {
      hide LogKept, Rested, Carried, CooldownsKept, Rooted, Heard, Validated, Justified, ReadAs, SameIdentity;
      hide Throttled, Throttles, Rationed, Due, NoneOpen, SpacedFrom, LastStopped, MayValidate, Prepared, Hint;
      ghost var before := world.requests;
      Warranted(op, target, key);
      var stamp := if recovering then lastRequest else world.now;
      remoteErr, returned, listing := world.Send(op, target, session, stamp, key, account.email, stopped.Some?);
      ghost var r := world.requests[|before|];
      assert world.requests == before + [r];
      SentIsLogged(recovering, record, world.loaded, world.checkpoints, before, world.cooldowns, world.removals, r);
      TroubleSeen(world.loaded, record, world.checkpoints, before, r);
      RationedIsCharged(before, attempts, old(world.now));
      if recovering && stopped.None? { AnswerCounts(before, r, attempts, world.now); }
    }

    /** What is about to be sent is warranted by the log before it. */
    lemma Warranted(op: Operation, target: string, key: string)
      requires Steady() && (op.Validate? || ready) && (world.cancelled ==> op.List?)
      requires IsMutation(op) ==> MayMutate(op, key, target)
      ensures forall r: Request ::
                && r.op == op && r.target == target && r.address == key && r.owner == account.email
                && (r.late ==> world.cancelled)
                && r.read == ReadNow(world.accountID, world.starts, world.lookups, key) ==>
                Justified(world.requests, r)
    {
      hide LogKept, Rooted, Heard, LastStopped, Validated, Observed, Settled, SameEmail, Trim, SameIdentity, AllOurs;
    }

    // ------------------------------------------------------------ session and directory

    method LoadSession() returns (err: Option<Err>)
      requires Sound() && Cooled() && !ready && !halted && stopped.None? && world.requests == []
      modifies this`session, this`record, this`valid, this`stopped, this`halted
      modifies world`cursor, world`troubles, world`now, world`cancelled, world`loaded, world`cleanups
      ensures Sound() && Cooled() && !valid && Blamed(err.Some?)
      ensures err.None? ==> !halted && stopped.None? && world.loaded.Some?
      ensures 0 <= attempts <= MAX_RECOVERIES && !LastStopped(world.requests)
    {
      hide LogKept, Rested, Trim, Rationed;
      var loaded := world.LoadSession();
      RestedLater(world.requests, world.cooldowns);
      RationedLater(world.requests, attempts);
      if loaded.Ok? {
        NoRequestsYet(recovering, record, loaded.value.record, world.cooldowns, world.removals);
        session, record := loaded.value.session, loaded.value.record;
        return None;
      }
      err := Some(loaded.error);
      if Is(loaded.error, SessionExpired) {
        var result := Expire(loaded.error);
        err := Some(result);
      }
    }

    /** One validation, after whatever wait is due. */
    method ValidateOnce() returns (err: Option<Err>)
      requires Sound() && Cooled() && Tracks() && !halted && stopped.None? && !valid && world.loaded.Some?
      requires !LastStopped(world.requests) && MayValidate(recovering, world.requests)
      modifies this`nextServerDelay, this`stopped, this`halted, this`lastRequest, this`requested
      modifies this`session, this`valid, this`lastError
      modifies world`cursor, world`troubles, world`now, world`cancelled, world`lookups
      modifies world`requests, world`checkpoints, world`cleanups
      ensures Sound() && Blamed(err.Some?)
      ensures Charged() && !valid && |world.requests| <= |old(world.requests)| + 1
      ensures err.None? || !CanRecover(err.value) ==> Cooled()
      ensures err.None? ==> !halted && stopped.None? && !LastStopped(world.requests) && Validated(world.requests)
      ensures err.Some? && CanRecover(err.value) ==> MayValidate(recovering, world.requests)
    {
      hide Sound, Cooled, Charged, CodeOf, Rechecked;
      var refused, mapped, _, _ := Exchange(Job, Validate, "", "");
      err := if refused.Some? then refused else mapped;
    }

    /** One validation, and the cooldown of a throttle; `again` if it is to be repeated. */
    method ValidateTurn() returns (again: bool, err: Option<Err>)
      requires Sound() && Cooled() && Tracks() && !halted && stopped.None? && !valid && world.loaded.Some?
      requires !LastStopped(world.requests) && MayValidate(recovering, world.requests)
      requires 0 <= attempts <= MAX_RECOVERIES
      modifies this`nextServerDelay, this`stopped, this`halted, this`lastRequest, this`requested
      modifies this`session, this`valid, this`lastError, this`attempts
      modifies world`cursor, world`troubles, world`now, world`cancelled, world`lookups
      modifies world`requests, world`checkpoints, world`cleanups, world`cooldowns
      ensures Sound() && Cooled() && !valid && Blamed(again || err.Some?)
      ensures |world.requests| <= |old(world.requests)| + 1 && old(world.cooldowns) <= world.cooldowns
      ensures old(attempts) <= attempts <= MAX_RECOVERIES && (again ==> attempts > old(attempts))
      ensures again || err.None? ==>
                !halted && stopped.None? && !LastStopped(world.requests)
      ensures again ==> MayValidate(recovering, world.requests)
      ensures !again && err.None? ==> Validated(world.requests)
    {
      hide Sound, Cooled, Charged, CodeOf, CooldownAdded, SameIdentity, MayValidate, Validated, LastStopped;
      again := false;
      err := ValidateOnce();
      if err.None? || !CanRecover(err.value) {
        return;
      }
      err := RecoverThrottle(err.value);
      if err.None? {
        NotStoppedYet();
        again := true;
      }
    }

    /** Validates the session, waiting out throttles. */
    method ValidateSession() returns (err: Option<Err>)
      requires Sound() && Cooled() && Tracks() && !ready && !halted && stopped.None? && !valid
      requires world.requests == [] && world.loaded.Some?
      modifies this`nextServerDelay, this`stopped, this`halted, this`lastRequest, this`requested
      modifies this`session, this`valid, this`lastError, this`attempts
      modifies world`cursor, world`troubles, world`now, world`cancelled, world`lookups
      modifies world`requests, world`checkpoints, world`cleanups, world`cooldowns
      ensures Sound() && Cooled() && !valid && old(world.cooldowns) <= world.cooldowns
      ensures Blamed(err.Some?)
      ensures old(attempts) <= attempts <= MAX_RECOVERIES && |world.requests| <= 1 + attempts - old(attempts)
      ensures err.None? ==> !halted && stopped.None? && !LastStopped(world.requests) && Validated(world.requests)
    {
      hide Sound, Cooled, SameIdentity, Validated;
      SteadyAttempts();
      while true
        invariant Sound() && Cooled() && Tracks() && !valid && !halted && stopped.None?
        invariant old(attempts) <= attempts <= MAX_RECOVERIES && |world.requests| <= attempts - old(attempts)
        invariant !LastStopped(world.requests)
        invariant MayValidate(recovering, world.requests) && old(world.cooldowns) <= world.cooldowns && Blamed(false)
        decreases MAX_RECOVERIES - attempts
      {
        hide LastStopped, MayValidate;
        var again;
        again, err := ValidateTurn();
        if !again {
          return;
        }
      }
    }

    lemma SteadyAttempts()
      requires Sound()
      ensures 0 <= attempts <= MAX_RECOVERIES
    {
    }

    /** Loads the session once and validates it. */
    method Initialize() returns (err: Option<Err>)
      requires Sound() && Cooled() && Tracks() && !ready && !halted && stopped.None? && world.requests == []
      modifies this`nextServerDelay, this`stopped, this`halted, this`lastRequest, this`requested
      modifies this`session, this`valid, this`lastError, this`attempts, this`record, this`ready
      modifies world`cursor, world`troubles, world`now, world`cancelled, world`lookups
      modifies world`requests, world`checkpoints, world`cleanups, world`cooldowns, world`loaded
      ensures Sound() && Cooled() && !valid && old(world.cooldowns) <= world.cooldowns && Blamed(err.Some?)
      ensures old(attempts) <= attempts <= MAX_RECOVERIES && |world.requests| <= 1 + attempts - old(attempts)
      ensures err.None? ==> ready && !halted && stopped.None? && !LastStopped(world.requests)
    {
      hide Sound, Cooled, LastStopped;
      err := LoadSession();
      if err.Some? {
        return;
      }
      err := ValidateSession();
      if err.None? {
        MarkReady();
      }
    }

    method MarkReady()
      requires Sound() && Cooled() && !valid && world.loaded.Some? && Known() && Validated(world.requests)
      modifies this`ready
      ensures Sound() && Cooled() && ready
    {
      hide LogKept, Paced, Carried, LastStopped, Rationed;
      ready := true;
    }

    /** What was sent, if anything, began with a listing. */
    twostate predicate Relisted()
      reads world
    {
      && old(world.requests) <= world.requests
      && (|world.requests| > |old(world.requests)| ==> world.requests[|old(world.requests)|].op.List?)
    }

    /** One listing, after whatever wait is due; `ends` if the wait was abandoned. */
    method ListOnce(reconcile: bool) returns (err: Option<Err>, ends: bool, listing: Listing)
      requires Sound() && Cooled() && Tracks() && ready && !valid && !halted && !LastStopped(world.requests)
      modifies this`nextServerDelay, this`stopped, this`halted, this`lastRequest, this`requested
      modifies this`session, this`valid, this`lastError
      modifies world`cursor, world`troubles, world`now, world`cancelled, world`lookups
      modifies world`requests, world`checkpoints, world`cleanups
      ensures Sound() && Blamed(err.Some?)
      ensures Charged() && !valid && Relisted() && |world.requests| <= |old(world.requests)| + 1
      ensures old(stopped).Some? ==> stopped.Some?
      ensures err.None? || ends || !CanRecover(err.value) ==> Cooled()
      ensures err.None? ==>
                && !halted && stopped == old(stopped)
                && |old(world.requests)| < |world.requests|
                && var r := world.requests[|world.requests| - 1];
                && Listed(r) && r.listing == listing && (r.stopped <==> old(stopped).Some?)
    {
      hide Sound, Cooled, Charged, CodeOf, Rechecked, LastStopped;
      listing := Listing([], "", []);
      ReadyIsLoaded();
      err := WaitServerDelay(Job);
      if err.Some? {
        EndedIsCharged();
        return err, true, listing;
      }
      var refused, mapped, fatal;
      refused, mapped, fatal, listing := Exchange(if reconcile then Detached else Job, List, "", "");
      err, ends := if refused.Some? then refused else mapped, false;
    }

    lemma ReadyIsLoaded()
      requires Sound() && ready
      ensures world.loaded.Some?
    {
      hide LogKept;
    }

    lemma CooledIsCharged()
      requires Cooled()
      ensures Charged()
    {
    }

    lemma EndedIsCharged()
      requires halted || stopped.Some?
      ensures Charged() && Cooled()
    {
    }

    /** One listing, and the cooldown of a throttle; `again` if the directory is to be listed once more. */
    method ListTurn(reconcile: bool) returns (again: bool, err: Option<Err>, listing: Listing)
      requires Sound() && Cooled() && Tracks() && ready && !valid && !halted && !LastStopped(world.requests)
      requires 0 <= attempts <= MAX_RECOVERIES
      modifies this`nextServerDelay, this`stopped, this`halted, this`lastRequest, this`requested
      modifies this`session, this`valid, this`lastError, this`attempts
      modifies world`cursor, world`troubles, world`now, world`cancelled, world`lookups
      modifies world`requests, world`checkpoints, world`cleanups, world`cooldowns
      ensures Sound() && Cooled() && !valid && Blamed(again || err.Some?)
      ensures Relisted() && |world.requests| <= |old(world.requests)| + 1 && old(world.cooldowns) <= world.cooldowns
      ensures old(attempts) <= attempts <= MAX_RECOVERIES && (old(stopped).Some? ==> stopped.Some?)
      ensures again ==> attempts > old(attempts) && !LastStopped(world.requests)
      ensures again || err.None? ==>
                !halted && stopped == old(stopped)
      ensures old(stopped).Some? ==> attempts == old(attempts)
      ensures !again && err.None? ==>
                && |old(world.requests)| < |world.requests|
                && var r := world.requests[|world.requests| - 1];
                && Listed(r) && r.listing == listing && (r.stopped <==> old(stopped).Some?)
    {
      hide Sound, Cooled, Charged, CodeOf, CooldownAdded, LastStopped, Listed, SameIdentity;
      again := false;
      var ends;
      err, ends, listing := ListOnce(reconcile);
      if err.None? || ends || !CanRecover(err.value) {
        return;
      }
      err := RecoverThrottle(err.value);
      if err.None? {
        NotStoppedYet();
        again := true;
      }
    }

    /** Lists the directory, waiting out throttles. A reconciliation outlives the job's cancellation. */
    method ReadDirectory(reconcile: bool) returns (err: Option<Err>, listing: Listing)
      requires Sound() && Cooled() && Tracks() && ready && !valid && !halted && !LastStopped(world.requests)
      requires 0 <= attempts <= MAX_RECOVERIES
      modifies this`nextServerDelay, this`stopped, this`halted, this`lastRequest, this`requested
      modifies this`session, this`valid, this`lastError, this`attempts
      modifies world`cursor, world`troubles, world`now, world`cancelled, world`lookups
      modifies world`requests, world`checkpoints, world`cleanups, world`cooldowns
      ensures Blamed(err.Some?)
      ensures Sound() && Cooled() && !valid && Relisted() && old(world.cooldowns) <= world.cooldowns
      ensures old(attempts) <= attempts <= MAX_RECOVERIES
      ensures |world.requests| <= |old(world.requests)| + 1 + attempts - old(attempts)
      ensures old(stopped).Some? ==> stopped.Some? && attempts == old(attempts)
      ensures err.None? ==>
                && !halted && stopped == old(stopped)
                && |old(world.requests)| < |world.requests|
                && var r := world.requests[|world.requests| - 1];
                && Listed(r) && r.listing == listing && (r.stopped <==> old(stopped).Some?)
    {
      hide Sound, Cooled, LastStopped, Listed, SameIdentity;
      while true
        invariant Sound() && Cooled() && Tracks() && ready && !valid && !halted && !LastStopped(world.requests)
        invariant Blamed(false) && Relisted() && old(world.cooldowns) <= world.cooldowns
        invariant |world.requests| <= |old(world.requests)| + attempts - old(attempts)
        invariant stopped == old(stopped)
        invariant stopped.Some? ==> attempts == old(attempts)
        invariant old(attempts) <= attempts <= MAX_RECOVERIES
        decreases MAX_RECOVERIES - attempts
      {
        var again;
        again, err, listing := ListTurn(reconcile);
        if !again {
          return;
        }
      }
    }

    lemma NotStoppedYet()
      requires Sound() && stopped.None?
      ensures !LastStopped(world.requests)
    {
    }

    method Invalidate()
      requires Sound()
      modifies this`valid
      ensures Kept() && !valid && (old(Cooled()) ==> Cooled()) && (old(Charged()) ==> Charged())
      ensures 0 <= attempts <= MAX_RECOVERIES && (halted ==> world.cancelled || stopped.Some?)
    {
      hide LogKept, Paced, Carried, LastStopped;
      valid := false;
    }

    method Install(aliases: seq<RemoteAlias>)
      requires Sound() && Cooled() && ready && world.requests != []
      requires var r := world.requests[|world.requests| - 1];
               Listed(r) && r.listing.aliases == aliases && WellFormed(aliases)
      requires AllOurs(Index(aliases), account.email) || Odd(world.requests, account.email)
      modifies this`directory, this`valid
      ensures Valid() && valid && directory == Index(aliases)
    {
      hide LogKept, Paced, Carried, LastStopped, Index, WellFormed, Settled, Observed;
      directory := BuildDirectory(aliases);
      valid := true;
      ListingIsObserved(world.requests);
    }

    /** Only a complete, trusted listing makes the cache valid again. */
    method RefreshDirectory(reconcile: bool) returns (err: Option<Err>)
      requires Sound() && Cooled() && Tracks() && ready && !halted && !LastStopped(world.requests)
      modifies this`nextServerDelay, this`stopped, this`halted, this`lastRequest, this`requested
      modifies this`session, this`valid, this`lastError, this`attempts, this`directory
      modifies world`cursor, world`troubles, world`now, world`cancelled, world`lookups
      modifies world`requests, world`checkpoints, world`cleanups, world`cooldowns
      ensures Valid() && Relisted() && old(world.cooldowns) <= world.cooldowns && Blamed(false)
      ensures err.Some? ==> world.troubles > old(world.troubles) || Odd(world.requests, account.email)
      ensures err.Some? && world.requests == old(world.requests) ==> world.troubles > old(world.troubles)
      ensures old(attempts) <= attempts
      ensures |world.requests| <= |old(world.requests)| + 1 + attempts - old(attempts)
      ensures old(stopped).Some? ==> stopped.Some? && attempts == old(attempts)
      ensures err.None? ==>
                && valid && !halted && stopped == old(stopped)
                && |old(world.requests)| < |world.requests|
                && var r := world.requests[|world.requests| - 1];
                && Listed(r) && WellFormed(r.listing.aliases) && directory == Index(r.listing.aliases)
                && (r.stopped <==> old(stopped).Some?)
    {
      hide Sound, Cooled, Charged, WellFormed, Index, Belongs, LastStopped, Settled, Observed, SameIdentity, AllOurs;
      hide Usable, Odd;
      Invalidate();
      var listing;
      err, listing := ReadDirectory(reconcile);
      if err.Some? {
        return;
      }
      var _, _, rejected := FilterAliases(listing, account.email);
      UsableOrOdd(world.requests, account.email);
      if rejected.Some? {
        var kind := if rejected.value.AccountMismatchCode? then AccountMismatch else Upstream;
        return Some(Coded(rejected.value, kind, None));
      }
      Install(listing.aliases);
    }

    // ------------------------------------------------------------ one item

    /** The cached entry of an address; one that forwards elsewhere is an error, not an absence. */
    function Find(key: string): Result<Option<RemoteAlias>, Err>
      reads this
    {
      if key !in directory then Ok(None)
      else if !SameEmail(directory[key].forwardTo, account.email) then
        Fail(Coded(AccountMismatchCode, AccountMismatch, None))
      else Ok(Some(directory[key]))
    }

    /** In the middle of item `id`: nothing stands in the way of its next request. */
    ghost predicate Working(id: int, key: string)
      reads this, world
    {
      && Valid() && ready && !halted && stopped.None? && !LastStopped(world.requests)
      && Known() && Current(id, key)
      && (recovering ==> aliasID == id && address == key)
    }

    lemma WorkingTracks(id: int, key: string)
      requires Working(id, key)
      ensures Tracks()
    {
      ReadNowIsReadAs(world.accountID, world.starts, world.lookups, id, key);
      hide Valid, ReadNow, ReadAs;
    }

    /** At most `cost` requests, and four more for every throttle recovery. */
    twostate predicate Spent(cost: int)
      reads this, world
    {
      && old(world.requests) <= world.requests && old(attempts) <= attempts <= MAX_RECOVERIES
      && old(world.cooldowns) <= world.cooldowns
      && |world.requests| <= |old(world.requests)| + cost + 4 * (attempts - old(attempts))
    }

    /** The current item was removed locally, last of all, under an address read in its call. */
    twostate predicate Removed(id: int)
      reads this, world
    {
      && |world.removals| == |old(world.removals)| + 1
      && old(world.removals) <= world.removals && ItemIs(world.starts, id)
      && var removal := world.removals[|old(world.removals)|];
      && removal.aliasID == id && removal.read && removal.item == |world.starts| - 1
      && removal.since == Since() && removal.upTo == |world.requests|
    }

    /** The requests sent before the current item. */
    ghost function Since(): nat
      reads this, world
    {
      if world.starts == [] then 0 else world.starts[|world.starts| - 1].requests
    }

    method Publish(id: int, key: string) returns (err: Option<Err>)
      requires Valid() && Confirmed(world.requests, Since(), key)
      requires Current(id, key)
      modifies world`cursor, world`troubles, world`now, world`cancelled, world`removals
      ensures Valid() && Removed(id) && Blamed(err.Some?)
    {
      hide Paced, Carried, WellRun, CooldownsKept, ThrottlesKept, Confirmed, Settled, Observed, LastStopped, Rationed;
      hide ReadNow, SameIdentity, AllOurs;
      PacedLater(world.requests, world.cooldowns);
      RationedLater(world.requests, attempts);
      assert world.requests[..|world.requests|] == world.requests;
      err := world.RemoveLocal(id, key);
    }

    /** A listing in the middle of an item; what it does not have is gone. */
    method Relist(id: int, key: string) returns (err: Option<Err>)
      requires Working(id, key) && At(id)
      modifies this`nextServerDelay, this`stopped, this`halted, this`lastRequest, this`requested
      modifies this`session, this`valid, this`lastError, this`attempts, this`directory
      modifies world`cursor, world`troubles, world`now, world`cancelled, world`lookups
      modifies world`requests, world`checkpoints, world`cleanups, world`cooldowns
      ensures Valid() && Spent(1) && Relisted() && Excused(err.Some?)
      ensures err.None? ==> Working(id, key) && valid && |world.requests| > |old(world.requests)|
      ensures err.None? && key !in directory ==> Confirmed(world.requests, Since(), key)
    {
      hide Sound, Cooled, WellFormed, Index, Settled, Observed, ReadNow, SameIdentity, ReadAs, Odd, Tracks, AllOurs;
      WorkingTracks(id, key);
      err := RefreshDirectory(false);
      OddStays(old(world.requests), world.requests, account.email);
      ReadNowStays(world.accountID, world.starts, old(world.lookups), world.lookups, key);
    }

    /** The alias in a directory that is good enough to act on; absence only after a read of this call. */
    method FindRemote(id: int, key: string) returns (err: Option<Err>, remote: Option<RemoteAlias>)
      requires Working(id, key) && At(id)
      modifies this`nextServerDelay, this`stopped, this`halted, this`lastRequest, this`requested
      modifies this`session, this`valid, this`lastError, this`attempts, this`directory
      modifies world`cursor, world`troubles, world`now, world`cancelled, world`lookups
      modifies world`requests, world`checkpoints, world`cleanups, world`cooldowns
      ensures Valid() && Spent(1) && Relisted() && Excused(err.Some?)
      ensures err.None? && remote.Some? && RemoteId(remote.value) == "" ==> Cause()
      ensures !old(valid) && err.None? ==> |world.requests| > |old(world.requests)|
      ensures err.None? ==> Working(id, key) && valid && Find(key) == Ok(remote)
      ensures err.None? && remote.None? ==> Confirmed(world.requests, Since(), key)
    {
      hide Sound, Cooled, WellFormed, Index, Settled, Observed, ReadNow, SameIdentity, Odd, Confirmed;
      remote := None;
      var cold := !valid;
      if cold {
        err := Relist(id, key);
        if err.Some? {
          return;
        }
      }
      var found := Find(key);
      if found.Fail? {
        return Some(found.error), None;
      }
      if found.value.None? && !cold {
        err := Relist(id, key);
        if err.Some? {
          return;
        }
        found := Find(key);
        if found.Fail? {
          return Some(found.error), None;
        }
      }
      err, remote := None, found.value;
    }

    /** The cached entry of `key` is this mailbox's and carries the remote ID. */
    ghost predicate Cached(key: string, remoteID: string, active: bool)
      reads this
    {
      && valid && key in directory
      && RemoteId(directory[key]) == remoteID != ""
      && SameEmail(directory[key].forwardTo, account.email)
      && (directory[key].isActive <==> active)
    }

    /** Writes an accepted deactivation to the cache. */
    method CacheInactive(key: string, remote: RemoteAlias)
      requires Sound() && Cooled() && Cached(key, RemoteId(remote), true) && directory[key] == remote
      requires world.requests != [] && (AllOurs(directory, account.email) || Odd(world.requests, account.email))
      requires var n := |world.requests| - 1;
               && directory == Observed(world.requests[..n]) && Settled(world.requests[..n])
               && world.requests[n].op.Deactivate? && world.requests[n].target == RemoteId(remote)
               && world.requests[n].error.None?
      modifies this`directory
      ensures Valid() && Cached(key, RemoteId(remote), false)
    {
      hide LogKept, Paced, Carried, LastStopped, Observed, Settled, Rooted, Rationed, SameIdentity, AllOurs;
      hide SameEmail, Trim;
      ghost var n := |world.requests| - 1;
      AcceptedMutation(world.requests, key);
      OursStays(directory, key, account.email);
      directory := directory[key := remote.(isActive := false)];
    }

    /** Drops an accepted deletion from the cache. */
    method CacheDeleted(key: string)
      requires Sound() && Cooled() && key in directory && RemoteId(directory[key]) != ""
      requires world.requests != [] && (AllOurs(directory, account.email) || Odd(world.requests, account.email))
      requires var n := |world.requests| - 1;
               && directory == Observed(world.requests[..n]) && Settled(world.requests[..n])
               && world.requests[n].op.Delete? && world.requests[n].target == RemoteId(directory[key])
               && world.requests[n].error.None?
      modifies this`directory
      ensures Valid()
    {
      hide LogKept, Paced, Carried, LastStopped, Observed, Settled, Rooted, Rationed, SameIdentity, AllOurs;
      hide SameEmail, Trim;
      ghost var n := |world.requests| - 1;
      AcceptedMutation(world.requests, key);
      OursStays(directory, key, account.email);
      directory := directory - {key};
    }

    /** The end of one item: nothing was removed, or this item was, on this call's evidence. */
    twostate predicate Outcome(id: int, succeeded: bool)
      reads this, world
    {
      && (world.removals == old(world.removals) || Removed(id))
      && (succeeded ==> Removed(id))
    }

    /** After a throttle nothing is replayed: the cooldown is waited for, and the directory is read first. */
    twostate predicate StartedOver()
      reads this, world
    {
      && Relisted()
      && (|world.requests| > |old(world.requests)| ==>
            && |world.cooldowns| > |old(world.cooldowns)| && old(world.cooldowns) <= world.cooldowns
            && world.cooldowns[|old(world.cooldowns)|].requestsBefore == |old(world.requests)|)
    }

    /** Reads the directory again, whatever has become of the job; only an alias still listed stays open. */
    method Reconcile(id: int, key: string, mapped: Err)
      returns (finished: bool, err: Option<Err>, remote: Option<RemoteAlias>)
      requires Cause() && At(id) && Current(id, key)
      requires Sound() && Cooled() && Tracks() && ready && !halted && !LastStopped(world.requests)
      modifies this`nextServerDelay, this`stopped, this`halted, this`lastRequest, this`requested
      modifies this`session, this`valid, this`lastError, this`attempts, this`directory
      modifies world`cursor, world`troubles, world`now, world`cancelled, world`lookups
      modifies world`requests, world`checkpoints, world`cleanups, world`cooldowns, world`removals
      ensures Valid() && Relisted() && old(world.cooldowns) <= world.cooldowns && Excused(true)
      ensures old(attempts) <= attempts && (old(stopped).Some? ==> stopped.Some?)
      ensures |world.requests| <= |old(world.requests)| + 1 + attempts - old(attempts)
      ensures |world.requests| > |old(world.requests)| || world.troubles > old(world.troubles)
      ensures finished ==> Outcome(id, err.None?)
      ensures !finished ==>
                && world.removals == old(world.removals)
                && !halted && stopped == old(stopped) && (stopped.None? ==> !LastStopped(world.requests))
                && valid && remote.Some? && Find(key) == Ok(remote)
    {
      hide Sound, Cooled, WellFormed, Index, Settled, Observed, SameEmail;
      hide ReadNow, SameIdentity, AllOurs, ReadAs, Odd, Tracks, ItemIs;
      remote := None;
      err := RefreshDirectory(true);
      OddStays(old(world.requests), world.requests, account.email);
      if err.Some? {
        return true, Some(Joined([err.value, mapped])), None;
      }
      var found := Find(key);
      if found.Fail? {
        return true, Some(Joined([found.error, mapped])), None;
      }
      ReadNowStays(world.accountID, world.starts, old(world.lookups), world.lookups, key);
      if found.value.None? {
        err := Publish(id, key);
        return true, err, None;
      }
      return false, None, found.value;
    }

    /**
     A mutation has failed without ending the account. A throttle starts the item over after the
     cooldown, never the request alone; anything else is settled by reading the directory again.
     */
    method SettleFailure(id: int, key: string, mapped: Err)
      returns (finished: bool, err: Option<Err>, remote: Option<RemoteAlias>)
      requires Cause() && world.troubles > 0
      requires Kept() && ready && !valid && !halted && !LastStopped(world.requests) && Tracks()
      requires Charged() && (CanRecover(mapped) || Cooled())
      requires At(id) && Current(id, key)
      modifies this, world
      ensures Valid() && ready && old(world.requests) <= world.requests && old(attempts) <= attempts
      ensures old(world.cooldowns) <= world.cooldowns
      ensures |world.requests| <= |old(world.requests)| + 1 + 4 * (attempts - old(attempts))
      ensures old(stopped).Some? ==> stopped.Some?
      ensures Excused(true)
      ensures if old(CanRecover(mapped)) then finished && StartedOver()
              else
                && Relisted()
                && (|world.requests| > |old(world.requests)| || world.troubles > old(world.troubles))
      ensures finished ==> Outcome(id, err.None?)
      ensures !finished ==>
                && world.removals == old(world.removals)
                && !halted && stopped == old(stopped) && (stopped.None? ==> !LastStopped(world.requests))
                && valid && remote.Some? && Find(key) == Ok(remote)
                && aliasID == old(aliasID) && address == old(address)
      decreases MAX_RECOVERIES - attempts, 3
    {
      hide Sound, Cooled, Charged, CodeOf, Tracks, ItemIs, ReadNow, Odd, LastStopped, Find;
      if CanRecover(mapped) {
        err := StartOver(id, mapped);
        return true, err, None;
      }
      finished, err, remote := Reconcile(id, key, mapped);
    }

    /** Waits for the cooldown and begins the item again. */
    method StartOver(id: int, mapped: Err) returns (err: Option<Err>)
      requires Cause() && world.troubles > 0 && At(id)
      requires Kept() && Charged() && ready && !valid && !halted && CanRecover(mapped)
      modifies this, world
      ensures Valid() && ready && old(world.requests) <= world.requests && old(attempts) <= attempts
      ensures old(world.cooldowns) <= world.cooldowns
      ensures |world.requests| <= |old(world.requests)| + 1 + 4 * (attempts - old(attempts))
      ensures Excused(true) && StartedOver() && Outcome(id, err.None?)
      decreases MAX_RECOVERIES - attempts, 2
    {
      hide Sound, Cooled, Charged, LastStopped, WellFormed, Index, Settled, Observed, CodeOf;
      hide ReadNow, SameIdentity, AllOurs, ReadAs, Odd;
      err := RecoverThrottle(mapped);
      if err.None? {
        err := Delete(id);
      }
    }

    /** A mutation of the cached entry, and what its answer means for the cache. */
    method Mutate(op: Operation, id: int, key: string, remote: RemoteAlias)
      returns (refused: Option<Err>, mapped: Option<Err>, fatal: bool)
      requires IsMutation(op) && Working(id, key)
      requires Cached(key, RemoteId(remote), op.Deactivate?) && directory[key] == remote
      modifies this`nextServerDelay, this`stopped, this`halted, this`lastRequest, this`requested
      modifies this`session, this`valid, this`lastError, this`directory
      modifies world`cursor, world`troubles, world`now, world`cancelled, world`lookups
      modifies world`requests, world`checkpoints, world`cleanups
      ensures Kept() && Charged() && ready && old(world.requests) <= world.requests
      ensures Blamed(refused.Some? || mapped.Some?)
      ensures refused.Some? ==> Valid() && world.requests == old(world.requests)
      ensures refused.None? ==>
                && |world.requests| == |old(world.requests)| + 1
                && var r := world.requests[|old(world.requests)|];
                && r.op == op && r.target == RemoteId(remote) && r.address == key && (mapped.None? ==> r.error.None?)
      ensures refused.None? && mapped.None? ==>
                Working(id, key) && (op.Deactivate? ==> Cached(key, RemoteId(remote), false))
      ensures refused.None? && mapped.Some? ==>
                && !valid && (fatal || !CanRecover(mapped.value) ==> Valid())
                && (!fatal ==>
                      && !halted && !LastStopped(world.requests)
                      && Tracks())
    {
      hide Sound, Cooled, Charged, WellFormed, Index, Settled, Observed, SameEmail, Trim, CodeOf, Rechecked;
      hide ReadNow, SameIdentity, AllOurs, ReadAs, Odd;
      var listing;
      ReadyIsLoaded();
      WorkingTracks(id, key);
      refused, mapped, fatal, listing := Exchange(Job, op, RemoteId(remote), key);
      if refused.Some? {
        return;
      }
      ReadNowStays(world.accountID, world.starts, old(world.lookups), world.lookups, key);
      OddStays(old(world.requests), world.requests, account.email);
      ReadAsStays(old(world.lookups), world.lookups, aliasID, address);
      if mapped.Some? {
        Invalidate();
        return;
      }
      PrefixOf(old(world.requests), world.requests);
      if op.Deactivate? {
        CacheInactive(key, remote);
      } else {
        CacheDeleted(key);
      }
      CooledIsCharged();
    }

    /** Deactivates an active alias, unless the item ends here; `remoteID` is the alias to delete. */
    method DeactivateRemote(id: int, key: string, remote: RemoteAlias)
      returns (finished: bool, err: Option<Err>, remoteID: string)
      requires Working(id, key) && Cached(key, RemoteId(remote), true) && directory[key] == remote
      requires At(id)
      modifies this, world
      ensures Valid() && Spent(2) && ready && Excused(finished && err.Some?)
      ensures finished ==> Outcome(id, err.None?)
      ensures !finished ==> Working(id, key) && Cached(key, remoteID, false) && world.removals == old(world.removals)
      decreases MAX_RECOVERIES - attempts, 4
    {
      hide Kept, Cooled, Charged, WellFormed, Index, Settled, Observed, SameEmail, Trim;
      hide ReadNow, SameIdentity, AllOurs, ReadAs, Odd;
      remoteID := RemoteId(remote);
      var refused, mapped, fatal := Mutate(Deactivate, id, key, remote);
      OddStays(old(world.requests), world.requests, account.email);
      if refused.Some? {
        return true, refused, remoteID;
      }
      if mapped.None? {
        return false, None, remoteID;
      }
      if fatal {
        return true, mapped, remoteID;
      }
      ReadNowStays(world.accountID, world.starts, old(world.lookups), world.lookups, key);
      var reconciled;
      finished, err, reconciled := SettleFailure(id, key, mapped.value);
      if finished {
        return;
      }
      ReadNowStays(world.accountID, world.starts, old(world.lookups), world.lookups, key);
      if reconciled.value.isActive || stopped.Some? {
        return true, mapped, remoteID;
      }
      remoteID := RemoteId(reconciled.value);
      if remoteID == "" {
        return true, Some(Joined([mapped.value, NoRemoteId()])), remoteID;
      }
    }

    /** Deletes an inactive alias at Apple, then locally. */
    method DeleteRemote(id: int, key: string, remoteID: string) returns (err: Option<Err>)
      requires Working(id, key) && Cached(key, remoteID, false) && At(id)
      modifies this, world
      ensures Valid() && Spent(2) && ready && Outcome(id, err.None?) && Excused(err.Some?)
      decreases MAX_RECOVERIES - attempts, 4
    {
      hide Kept, Cooled, Charged, WellFormed, Index, Settled, Observed, SameEmail, Trim;
      hide ReadNow, SameIdentity, AllOurs, ReadAs, Odd;
      var refused, mapped, fatal := Mutate(Operation.Delete, id, key, directory[key]);
      OddStays(old(world.requests), world.requests, account.email);
      if refused.Some? {
        return refused;
      }
      if mapped.None? {
        err := Publish(id, key);
        return;
      }
      if fatal {
        return mapped;
      }
      ReadNowStays(world.accountID, world.starts, old(world.lookups), world.lookups, key);
      var finished, remote;
      finished, err, remote := SettleFailure(id, key, mapped.value);
      if !finished {
        return mapped;
      }
    }

    /** The item is the current one under another address. */
    predicate Strays(id: int, key: string)
      reads this
    {
      recovering && aliasID == id && address != key
    }

    /** The alias of the item, of this account and not pending. */
    method ReadAlias(id: int) returns (err: Option<Err>, key: string)
      requires Valid() && Started() && At(id)
      modifies world`cursor, world`troubles, world`now, world`cancelled, world`lookups
      ensures Valid() && Started() && Blamed(err.Some?)
      ensures err.None? ==>
                && Current(id, key) && ReadAs(world.lookups, id, key) && (stopped.None? ==> !halted)
                && (id < 1 || Strays(id, key) ==> world.troubles > old(world.troubles))
    {
      hide LogKept, Paced, Carried, Rooted, Validated, NormalizeEmail, Trim, Settled, Observed, Pending, Rationed;
      hide SameIdentity, AllOurs, LastStopped, ReadNow, ReadAs, Moved;
      key := "";
      PacedLater(world.requests, world.cooldowns);
      RationedLater(world.requests, attempts);
      err := world.ContextErr(Job);
      if err.Some? {
        return;
      }
      var alias := world.GetAlias(id);
      ReadAsStays(old(world.lookups), world.lookups, aliasID, address);
      if alias.Fail? {
        return Some(alias.error), key;
      }
      if alias.value.accountID != accountID {
        return Some(Changed()), key;
      }
      if Pending(alias.value) {
        return Some(NotConfirmedYet()), key;
      }
      key := NormalizeEmail(alias.value.address);
      NewAddress(old(world.lookups), world.lookups, id, key, address);
      LastReadIsNow(accountID, world.starts, world.lookups, key);
    }

    /** The local checks ahead of an item, in the order the service makes them. */
    method Admit(id: int) returns (err: Option<Err>, key: string)
      requires Valid() && Started() && At(id)
      modifies this`stopped, this`aliasID, this`address, this`account
      modifies world`cursor, world`troubles, world`now, world`cancelled, world`lookups
      ensures Valid() && Started() && Blamed(err.Some? && old(stopped).None?)
      ensures stopped == old(stopped) || (old(stopped).None? && err.Some?)
      ensures err.None? ==> Current(id, key)
      ensures old(ready) || old(stopped).Some? ==> account == old(account)
      ensures err.None? ==>
                && !halted && stopped.None? && Tracks() && !LastStopped(world.requests)
                && (recovering ==> aliasID == id && address == key)
    {
      hide Valid, SameIdentity, ReadNow, ReadAs, LastStopped;
      err, key := ReadAlias(id);
      if err.Some? {
        return;
      }
      if stopped.Some? {
        return stopped, key;
      }
      ghost var lookups := world.lookups;
      err := AdmitIdentity(id, key);
      ReadNowStays(world.accountID, world.starts, lookups, world.lookups, key);
      ReadAsStays(lookups, world.lookups, id, key);
      if err.None? { ValidNotStopped(); }
    }

    lemma ValidNotStopped()
      requires Valid() && stopped.None?
      ensures !LastStopped(world.requests)
    {
    }

    /** The identity or the item has changed: the group ends for good. */
    method StopChanged()
      requires Valid() && stopped.None? && world.troubles > 0
      modifies this`stopped
      ensures Valid() && stopped == Some(Changed())
    {
      hide LogKept, Paced, Carried, Rooted, Validated, SameIdentity, Settled, Observed, Rationed, LastStopped, AllOurs;
      TrackStops();
      stopped := Some(Changed());
    }

    /** The item becomes the group's current one; its address must not change between two tries. */
    method AdmitItem(id: int, key: string) returns (err: Option<Err>)
      requires Valid() && stopped.None?
      requires ReadAs(world.lookups, id, key) && (Strays(id, key) ==> world.troubles > 0)
      modifies this`stopped, this`aliasID, this`address
      ensures Valid() && (err.Some? ==> stopped == Some(Changed()))
      ensures err.None? ==> stopped.None? && (recovering ==> aliasID == id && address == key)
      ensures err.Some? <==> old(Strays(id, key))
    {
      hide LogKept, Paced, Carried, Rooted, Validated, SameIdentity, Settled, Observed, Rationed, LastStopped, AllOurs;
      hide ReadAs;
      if recovering {
        if aliasID == id && address != key {
          StopChanged();
          return stopped;
        }
        aliasID, address := id, key;
      }
      err := None;
    }

    method ReadAccount() returns (current: Result<Account, Err>)
      requires Valid()
      modifies world`cursor, world`troubles, world`now, world`cancelled, world`lookups
      ensures Valid() && Blamed(current.Fail? || (ready && !SameIdentity(current.value, account)))
      ensures current.Fail? ==> world.lookups == old(world.lookups)
      ensures current.Ok? ==>
                world.lookups == old(world.lookups) + [AccountRead(current.value)] && accountID == world.accountID
    {
      hide LogKept, Paced, Carried, Rooted, Validated, SameIdentity, Settled, Observed, Rationed, LastStopped, AllOurs;
      hide ReadAs;
      PacedLater(world.requests, world.cooldowns);
      RationedLater(world.requests, attempts);
      current := world.GetAccount();
      ReadAsStays(old(world.lookups), world.lookups, aliasID, address);
    }

    lemma ReadyIsKnown()
      requires Valid() && ready
      ensures Known()
    {
      hide LogKept, Carried, Rooted;
    }

    /** The identity of a group that has sent nothing yet. */
    method Adopt(current: Account)
      requires Valid() && !ready && world.requests == [] && AccountRead(current) in world.lookups
      modifies this`account
      ensures Valid() && account == current && Known()
    {
      hide LogKept, Paced, Carried, Rooted, Validated, SameIdentity, Settled, Observed, Rationed, LastStopped, AllOurs;
      account := current;
    }

    method AdmitIdentity(id: int, key: string) returns (err: Option<Err>)
      requires Valid() && Started() && stopped.None?
      requires ReadAs(world.lookups, id, key) && (Strays(id, key) ==> world.troubles > 0)
      modifies this`stopped, this`aliasID, this`address, this`account
      modifies world`cursor, world`troubles, world`now, world`cancelled, world`lookups
      ensures Valid() && Started() && Blamed(err.Some? && !old(Strays(id, key)))
      ensures ready ==> account == old(account)
      ensures err.None? ==> Known() && stopped.None? && (recovering ==> aliasID == id && address == key)
      ensures |world.lookups| > |old(world.lookups)| && ready ==>
                var l := world.lookups[|old(world.lookups)|];
                l.AccountRead? && (!SameIdentity(l.account, account) ==> stopped == Some(Changed()))
    {
      hide Valid, SameIdentity, ReadAs;
      err := AdmitItem(id, key);
      if err.Some? {
        return;
      }
      var current := ReadAccount();
      if current.Fail? {
        return Some(current.error);
      }
      if ready && !SameIdentity(current.value, account) {
        StopChanged();
        return stopped;
      }
      if !ready {
        Adopt(current.value);
      } else {
        ReadyIsKnown();
      }
      err := None;
    }

    ghost method StartItem(id: int)
      requires Valid() && Started()
      modifies world`starts
      ensures Valid() && Started() && At(id)
      ensures world.starts == old(world.starts) + [Start(id, |world.requests|, |world.lookups|, world.troubles)]
    {
      hide LogKept, Paced, Carried, Rooted, Heard, Validated, Settled, Observed, LastStopped, Rationed, SameIdentity;
      hide AllOurs;
      world.StartItem(id);
    }

    /** Deletes one alias at Apple and, on Apple's confirmation in this very call, locally. */
    method Delete(id: int) returns (err: Option<Err>)
      requires Valid() && Started() && At(id)
      modifies this, world
      ensures Valid() && Started()
      ensures Spent(5 + 1 - old(Opening()))
      ensures old(stopped).Some? ==> stopped == old(stopped) && world.requests == old(world.requests) && err.Some?
      ensures Outcome(id, err.None?)
      ensures Excused(err.Some? && old(stopped).None?)
      ensures old(ready) ==> ready && (!old(valid) ==> Relisted())
      decreases MAX_RECOVERIES - attempts, 6
    {
      hide Sound, Cooled, LastStopped, WellFormed, Index, Settled, Observed;
      hide ReadNow, SameIdentity, AllOurs, ReadAs, Odd;
      var key;
      err, key := Admit(id);
      OddStays(old(world.requests), world.requests, account.email);
      OddStays(old(world.requests), world.requests, old(account.email));
      if err.Some? {
        return;
      }
      label Admitted:
      if !ready {
        err := Initialize();
        if err.Some? {
          Stop(err.value);
          return;
        }
      }
      ReadNowStays(world.accountID, world.starts, old@Admitted(world.lookups), world.lookups, key);
      err := DeleteReady(id, key);
    }

    /** Every later item of a group that could not be initialized fails the same way. */
    method Stop(err: Err)
      requires world.troubles > 0 && Sound() && Cooled() && !valid && 0 <= attempts <= MAX_RECOVERIES
      modifies this`stopped
      ensures Valid() && stopped.Some?
    {
      hide LogKept, Paced, Carried, LastStopped;
      if stopped.None? {
        TrackStops();
        stopped := Some(err);
      }
    }

    method DeleteReady(id: int, key: string) returns (err: Option<Err>)
      requires Working(id, key) && At(id)
      modifies this, world
      ensures Excused(err.Some?)
      ensures Valid() && ready && Spent(5) && Outcome(id, err.None?) && (!old(valid) ==> Relisted())
      decreases MAX_RECOVERIES - attempts, 5
    {
      hide Kept, Cooled, WellFormed, Index, Settled, Observed, SameEmail, Trim;
      hide ReadNow, SameIdentity, AllOurs, ReadAs, Odd, Confirmed, LastStopped, Known, ItemIs;
      var remote;
      err, remote := FindRemote(id, key);
      if err.Some? {
        return;
      }
      if remote.None? {
        err := Publish(id, key);
        return;
      }
      var remoteID := RemoteId(remote.value);
      if remoteID == "" {
        return Some(NoRemoteId());
      }
      if remote.value.isActive {
        var finished;
        finished, err, remoteID := DeactivateRemote(id, key, remote.value);
        if finished {
          return;
        }
      }
      err := DeleteRemote(id, key, remoteID);
    }
  }

  /** The cache of a run is Apple's directory whenever it is called valid. */
  lemma ValidCacheIsApplesDirectory(batch: Batch)
    requires batch.Valid() && batch.valid && Exclusive(batch.world.requests)
    ensures Mirrors(batch.directory, batch.world.requests[|batch.world.requests| - 1].after)
  {
    ObservedMirrorsApple(batch.world.requests);
  }

  /** The start of the next item's call, or the end. */
  function NextStart(starts: seq<Start>, i: nat, end: Start): Start {
    if i + 1 < |starts| then starts[i + 1] else end
  }

  /** The removal is for its item, within the item's own call. */
  predicate OwnRemoval(starts: seq<Start>, end: Start, removal: Removal) {
    && removal.item < |starts|
    && removal.aliasID == starts[removal.item].id && removal.since == starts[removal.item].requests
    && removal.upTo <= NextStart(starts, removal.item, end).requests
  }

  predicate HasRemoval(removals: seq<Removal>, i: nat) {
    exists k :: 0 <= k < |removals| && removals[k].item == i
  }

  /**
   An item fails only if something went wrong in its own call, if Apple's listing was not all this mailbox's,
   or, after some earlier trouble, in a group that has ended: nothing more is sent from this item on.
   */
  predicate Warranted(starts: seq<Start>, end: Start, odd: bool, ended: bool, i: nat)
    requires i < |starts|
  {
    || NextStart(starts, i, end).troubles > starts[i].troubles || odd
    || (ended && starts[i].troubles > 0 && starts[i].requests == end.requests)
  }

  /** The calls of the items follow each other; a success has the one removal of its item, a failure a cause. */
  predicate Accounted(
    ids: seq<int>, errs: seq<Option<Err>>, starts: seq<Start>, end: Start, odd: bool, ended: bool,
    removals: seq<Removal>)
  {
    && |errs| == |ids| == |starts|
    && (forall i :: 0 <= i < |ids| ==>
          starts[i].id == ids[i] && starts[i].requests <= NextStart(starts, i, end).requests)
    && (forall j, k :: 0 <= j < k < |removals| ==> removals[j].item < removals[k].item)
    && (forall k :: 0 <= k < |removals| ==> OwnRemoval(starts, end, removals[k]))
    && (forall i :: 0 <= i < |ids| && errs[i].None? ==> HasRemoval(removals, i))
    && (forall i :: 0 <= i < |ids| && errs[i].Some? ==> Warranted(starts, end, odd, ended, i))
  }

  lemma AccountedOneMore(
    ids: seq<int>, errs: seq<Option<Err>>, starts: seq<Start>, odd: bool, ended: bool, before: seq<Removal>,
    start: Start, err: Option<Err>, end: Start, odd': bool, ended': bool, after: seq<Removal>)
    requires Accounted(ids, errs, starts, start, odd, ended, before)
    requires start.requests <= end.requests && (odd ==> odd') && (ended ==> ended' && end.requests == start.requests)
    requires ended ==> start.troubles > 0
    requires after == before || (|after| == |before| + 1 && before <= after)
    requires |after| > |before| ==>
               var m := after[|before|];
               m.aliasID == start.id && m.item == |ids| && m.since == start.requests && m.upTo == end.requests
    requires err.None? ==> |after| > |before|
    requires err.Some? ==> end.troubles > start.troubles || odd' || ended
    ensures Accounted(ids + [start.id], errs + [err], starts + [start], end, odd', ended', after)
  {
    var starts' := starts + [start];
    forall i | 0 <= i < |ids|
      ensures NextStart(starts', i, end) == NextStart(starts, i, start)
    {
    }
    forall k | 0 <= k < |after|
      ensures OwnRemoval(starts', end, after[k])
      ensures k < |before| ==> after[k] == before[k] && after[k].item < |ids|
    {
      if k < |before| { assert after[k] == before[k] && OwnRemoval(starts, start, before[k]); }
    }
    forall i | 0 <= i < |ids| + 1 && (errs + [err])[i].Some?
      ensures Warranted(starts', end, odd', ended', i)
    {
      if i < |ids| { assert errs[i].Some? && Warranted(starts, start, odd, ended, i); }
    }
    SucceededOneMore(errs, err, before, after);
    hide OwnRemoval, NextStart, HasRemoval, Warranted;
  }

  lemma SucceededOneMore(errs: seq<Option<Err>>, err: Option<Err>, before: seq<Removal>, after: seq<Removal>)
    requires forall i :: 0 <= i < |errs| && errs[i].None? ==> HasRemoval(before, i)
    requires before <= after
    requires err.None? ==> |after| > |before| && after[|before|].item == |errs|
    ensures forall i :: 0 <= i < |errs| + 1 && (errs + [err])[i].None? ==> HasRemoval(after, i)
  {
    forall i | 0 <= i < |errs| + 1 && (errs + [err])[i].None?
      ensures HasRemoval(after, i)
    {
      if i < |errs| {
        assert errs[i].None?;
        var k :| 0 <= k < |before| && before[k].item == i;
        assert after[k] == before[k];
      } else {
        assert after[|before|].item == i;
      }
    }
  }

  /** Without trouble, and with all listings this mailbox's, every item succeeds. */
  lemma UntroubledSucceeds(
    ids: seq<int>, errs: seq<Option<Err>>, starts: seq<Start>, end: Start, ended: bool, removals: seq<Removal>)
    requires Accounted(ids, errs, starts, end, false, ended, removals) && end.troubles == 0
    requires forall i :: 0 <= i < |starts| ==> starts[i].troubles == 0
    ensures forall i :: 0 <= i < |ids| ==> errs[i].None? && HasRemoval(removals, i)
  {
    hide OwnRemoval, HasRemoval;
    forall i | 0 <= i < |ids|
      ensures errs[i].None?
    {
      assert !Warranted(starts, end, false, ended, i);
    }
  }

  /** Some listing was not all the mailbox's of an account that was read. */
  ghost predicate OddListing(h: History, lookups: seq<Lookup>) {
    exists a :: AccountRead(a) in lookups && Odd(h, a.email)
  }

  lemma KeptLog(batch: Batch)
    requires batch.Valid()
    ensures LogKept(batch.recovering, batch.record, batch.world.requests, batch.world.cooldowns, batch.world.removals)
    ensures |batch.world.cooldowns| == batch.attempts <= MAX_RECOVERIES
    ensures Rooted(batch.world.loaded, batch.record, batch.world.checkpoints, batch.world.requests)
    ensures Odd(batch.world.requests, batch.account.email) ==> OddListing(batch.world.requests, batch.world.lookups)
    ensures batch.stopped.Some? ==> batch.world.troubles > 0
    ensures batch.recovering ==> Recovered(batch.world.requests) <= 3
  {
    if batch.recovering { RecoveredAtMostThree(batch.world.requests); }
    hide LogKept, Recovered;
  }

  /** The items of a fresh group, one after the other. */
  method DeleteItems(batch: Batch, ids: seq<int>) returns (errs: seq<Option<Err>>)
    requires batch.Valid() && batch.Started() && batch.attempts == 0 && batch.stopped.None?
    requires batch.world.requests == [] && batch.world.removals == [] && batch.world.starts == []
    modifies batch, batch.world
    ensures batch.Valid() && |batch.world.requests| <= 5 * |ids| + 1 + 4 * batch.attempts
    ensures Accounted(ids, errs, batch.world.starts, batch.world.Mark(), batch.IsOdd(), batch.stopped.Some?,
                      batch.world.removals)
  {
    hide Accounted, Batch.Valid, Batch.Relisted, Odd;
    errs := [];
    NothingAccounted(batch.world.Mark(), batch.IsOdd());
    for n := 0 to |ids|
      invariant batch.Valid() && batch.Started()
      invariant |batch.world.requests| <= 5 * n + 4 * batch.attempts + batch.Opening()
      invariant Accounted(ids[..n], errs, batch.world.starts, batch.world.Mark(), batch.IsOdd(),
                          batch.stopped.Some?, batch.world.removals)
      invariant |errs| == |batch.world.starts| == n
    {
      ghost var starts, odd, ended, before :=
        batch.world.starts, batch.IsOdd(), batch.stopped.Some?, batch.world.removals;
      KeptLog(batch);
      MarkIsAny(ids[..n], errs, starts, batch.world.Mark(), ids[n], odd, ended, before);
      batch.StartItem(ids[n]);
      var err := batch.Delete(ids[n]);
      AccountedOneMore(ids[..n], errs, starts, odd, ended, before, batch.world.starts[n], err, batch.world.Mark(),
                       batch.IsOdd(), batch.stopped.Some?, batch.world.removals);
      assert ids[..n + 1] == ids[..n] + [ids[n]];
      errs := errs + [err];
    }
    assert ids[..|ids|] == ids;
  }

  lemma MarkIsAny(
    ids: seq<int>, errs: seq<Option<Err>>, starts: seq<Start>, end: Start, id: int, odd: bool, ended: bool,
    removals: seq<Removal>)
    requires Accounted(ids, errs, starts, end, odd, ended, removals)
    ensures Accounted(ids, errs, starts, end.(id := id), odd, ended, removals)
  {
    forall i | 0 <= i < |ids| && errs[i].Some?
      ensures Warranted(starts, end.(id := id), odd, ended, i)
    {
      assert Warranted(starts, end, odd, ended, i);
    }
    forall k | 0 <= k < |removals|
      ensures OwnRemoval(starts, end.(id := id), removals[k])
    {
      assert OwnRemoval(starts, end, removals[k]);
    }
  }

  /**
   The items of one account, in input order, with one session, one directory and one budget:
   whatever Apple answers, at most five requests an item and thirteen more, and the group goes on after at
   most three throttled answers, after the k-th of them only when 2^(k-1) minutes have passed.
   */
  method DeleteGroup(world: World, accountID: int, recovering: bool, ids: seq<int>)
    returns (errs: seq<Option<Err>>, ghost record: string)
    requires world.requests == [] && world.removals == [] && world.cooldowns == [] && world.checkpoints == []
    requires world.loaded.None? && world.starts == [] && world.accountID == accountID
    modifies world
    ensures |world.requests| <= 5 * |ids| + 1 + 4 * |world.cooldowns| <= 5 * |ids| + 13
    ensures LogKept(recovering, record, world.requests, world.cooldowns, world.removals)
    ensures StopsHeeded(recovering, record, world.requests)
    ensures recovering ==> ThrottlesKept(world.requests) && Recovered(world.requests) <= 3
    ensures Rooted(world.loaded, record, world.checkpoints, world.requests)
    ensures Accounted(ids, errs, world.starts, world.Mark(), OddListing(world.requests, world.lookups), true,
                      world.removals)
  {
    hide LogKept, Accounted, Odd, OddListing, StopsHeeded, ThrottlesKept, Recovered, Rooted, Batch.Valid, Batch.Started;
    var batch := new Batch(world, accountID, recovering);
    errs := DeleteItems(batch, ids);
    KeptLog(batch);
    WeakerExcuse(ids, errs, world.starts, world.Mark(), batch.IsOdd(), batch.stopped.Some?, world.removals,
                 OddListing(world.requests, world.lookups));
    record := batch.record;
    ThrottlesAreKept(recovering, record, world.requests, world.cooldowns, world.removals);
  }

  lemma ThrottlesAreKept(
    recovering: bool, record: string, h: History, cooldowns: seq<Cooldown>, removals: seq<Removal>)
    requires LogKept(recovering, record, h, cooldowns, removals)
    ensures recovering ==> ThrottlesKept(h)
    ensures StopsHeeded(recovering, record, h)
  {
    WellRunHeedsStops(recovering, record, h);
    hide ThrottlesKept, StopsHeeded;
  }

  lemma NothingAccounted(end: Start, odd: bool)
    ensures Accounted([], [], [], end, odd, false, [])
  {
  }

  lemma WeakerExcuse(
    ids: seq<int>, errs: seq<Option<Err>>, starts: seq<Start>, end: Start, odd: bool, ended: bool,
    removals: seq<Removal>, odd': bool)
    requires Accounted(ids, errs, starts, end, odd, ended, removals) && (odd ==> odd')
    ensures Accounted(ids, errs, starts, end, odd', true, removals)
  {
    hide OwnRemoval, HasRemoval;
    forall i | 0 <= i < |ids| && errs[i].Some?
      ensures Warranted(starts, end, odd', true, i)
    {
      assert Warranted(starts, end, odd, ended, i);
    }
  }

  /** An accepted mutation of a cached entry changes that entry of the observation and no other. */
  lemma AcceptedMutation(h: History, key: string)
    requires h != [] && Settled(h[..|h| - 1]) && key in Observed(h[..|h| - 1])
    requires var r := h[|h| - 1];
             r.error.None? && IsMutation(r.op) && r.target == RemoteId(Observed(h[..|h| - 1])[key]) != ""
    ensures Settled(h)
    ensures var before := Observed(h[..|h| - 1]);
            && (h[|h| - 1].op.Deactivate? ==> Observed(h) == before[key := before[key].(isActive := false)])
            && (h[|h| - 1].op.Delete? ==> Observed(h) == before - {key})
  {
    hide Trim, WellFormed, Index, Observed, Settled;
    var earlier := h[..|h| - 1];
    ObservedIdsDistinct(earlier);
    SingleEntryEffects(Observed(earlier), key);
    assert h == earlier + [h[|h| - 1]];
    ObservedOneMore(earlier, h[|h| - 1]);
  }

  lemma ThrottledIsRateLimited(r: Request)
    ensures Throttled(r) <==> r.error.Some? && CodeOf(Classify(true, r.error.value)) == Some(RateLimitedCode)
  {
    if r.error.Some? { ClassifyMeans(true, r.error.value); }
    hide Is, Classify, CodeOf, Recoverable;
  }

  lemma ReadAsStays(before: seq<Lookup>, after: seq<Lookup>, id: int, address: string)
    requires before <= after
    ensures ReadAs(before, id, address) ==> ReadAs(after, id, address)
  {
    if ReadAs(before, id, address) {
      var j :| 0 <= j < |before| && before[j].AliasRead? && before[j].id == id
               && NormalizeEmail(before[j].alias.address) == address;
      assert after[j] == before[j];
    }
  }

  /** A read under an address other than a known one has moved. */
  lemma NewAddress(before: seq<Lookup>, after: seq<Lookup>, id: int, key: string, address: string)
    requires |after| == |before| + 1 && before <= after && after[|before|].AliasRead? && after[|before|].id == id
    requires NormalizeEmail(after[|before|].alias.address) == key
    ensures ReadAs(after, id, key)
    ensures ReadAs(before, id, address) && address != key ==> Moved(before, id, key)
  {
    hide NormalizeEmail;
  }

  lemma ReadNowIsReadAs(accountID: int, starts: seq<Start>, lookups: seq<Lookup>, id: int, address: string)
    requires ReadNow(accountID, starts, lookups, address) && ItemIs(starts, id)
    ensures ReadAs(lookups, id, address)
  {
    hide Pending, NormalizeEmail;
  }

  lemma LastReadIsNow(accountID: int, starts: seq<Start>, lookups: seq<Lookup>, address: string)
    requires starts != [] && starts[|starts| - 1].lookups < |lookups|
    requires GoodRead(accountID, lookups[|lookups| - 1], starts[|starts| - 1].id, address)
    ensures ReadNow(accountID, starts, lookups, address)
  {
    hide GoodRead;
  }

  lemma ReadNowStays(accountID: int, starts: seq<Start>, before: seq<Lookup>, after: seq<Lookup>, address: string)
    requires ReadNow(accountID, starts, before, address) && before <= after
    ensures ReadNow(accountID, starts, after, address)
  {
    hide GoodRead;
    var s := starts[|starts| - 1];
    var j :| s.lookups <= j < |before| && GoodRead(accountID, before[j], s.id, address);
    assert after[j] == before[j];
  }

  /** What an answer without trouble is good for. */
  lemma TroubleSeen(
    loaded: Option<Stored>, record: string, checkpoints: seq<Checkpoint>, h: History, r: Request)
    requires loaded.Some? && Rooted(loaded, record, checkpoints, h)
    ensures r.error.Some? || Prepared(record, r.returned, r.sent).None? <==> Unfit(loaded, r)
  {
    hide Prepared;
  }

  lemma OursStays(directory: Directory, key: string, email: string)
    requires key in directory
    ensures AllOurs(directory, email) ==> AllOurs(directory[key := directory[key].(isActive := false)], email)
    ensures AllOurs(directory, email) ==> AllOurs(directory - {key}, email)
  {
    hide SameEmail, Trim;
  }

  lemma UsableOrOdd(h: History, email: string)
    requires h != [] && Listed(h[|h| - 1])
    ensures var listing := h[|h| - 1].listing;
            || Odd(h, email)
            || (WellFormed(listing.aliases) && Belongs(listing, email) && AllOurs(Index(listing.aliases), email))
  {
    var listing := h[|h| - 1].listing;
    if Usable(listing, email) {
      IndexLosesNothing(listing.aliases);
    }
    hide SameEmail, NormalizeEmail, Trim, WellFormed, Belongs;
  }

  lemma OddStays(h: History, longer: History, email: string)
    requires h <= longer
    ensures Odd(h, email) ==> Odd(longer, email)
    ensures h == [] ==> !Odd(h, email)
  {
    hide Usable;
    if Odd(h, email) {
      var i :| 0 <= i < |h| && Listed(h[i]) && !Usable(h[i].listing, email);
      assert longer[i] == h[i];
    }
  }

  lemma RootedOneMore(
    loaded: Option<Stored>, record: string, checkpoints: seq<Checkpoint>, h: History, r: Request)
    requires Rooted(loaded, record, checkpoints, h) && Begun(loaded, checkpoints, h, r.sent) && loaded.Some?
    ensures Rooted(loaded, record, checkpoints, h + [r])
    ensures LastStopped(h + [r]) <==> r.stopped
    ensures forall now :: Heard(h + [r], now) <==> now >= r.answered
  {
  }

  /** A warranted request in its turn keeps every log. */
  lemma SentIsLogged(
    recovering: bool, record: string, loaded: Option<Stored>, checkpoints: seq<Checkpoint>, h: History,
    cooldowns: seq<Cooldown>, removals: seq<Removal>, r: Request)
    requires LogKept(recovering, record, h, cooldowns, removals) && Rooted(loaded, record, checkpoints, h)
    requires Carried(recovering, record, loaded, checkpoints, h, r.sent, r.stopped) && loaded.Some?
    requires Justified(h, r) && !LastStopped(h) && (r.stopped ==> r.op.List?)
    requires r.op.Validate? ==> MayValidate(recovering, h)
    requires recovering ==> Rested(h, cooldowns, r.stamp, r.stamp) && SpacedFrom(h, r.stamp)
    requires recovering && !r.stopped ==> Due(h, r.stamp)
    ensures LogKept(recovering, record, h + [r], cooldowns, removals) && Rooted(loaded, record, checkpoints, h + [r])
    ensures NoneOpen(h + [r], cooldowns) && (Validated(h) ==> Validated(h + [r]))
    ensures LastStopped(h + [r]) <==> r.stopped
    ensures forall now :: Heard(h + [r], now) <==> now >= r.answered
  {
    CarriedMeans(recovering, record, loaded, checkpoints, h, r.sent, r.stopped);
    hide LogKept, Carried, InSession, Begun, NoneFailed, MayGoOn, MayValidate, Justified, Rested, SpacedFrom, Due;
    hide Rooted, Validated, NoneOpen, CooldownsKept, LastStopped, Heard;
    KeptCooldowns(recovering, record, h, cooldowns, removals);
    AnsweredLast(h, cooldowns, r);
    LogOneMore(recovering, record, h, cooldowns, removals, r);
    ValidatedOneMore(h, r);
    RootedOneMore(loaded, record, checkpoints, h, r);
  }

  /** One more checkpoint of the session that the answer gave. */
  lemma RootedStays(
    loaded: Option<Stored>, record: string, before: seq<Checkpoint>, after: seq<Checkpoint>, h: History)
    requires Rooted(loaded, record, before, h) && before <= after
    requires forall k :: |before| <= k < |after| ==> after[k].upTo == |h|
    ensures Rooted(loaded, record, after, h)
  {
    forall i | 0 < i < |h|
      ensures Checkpoint(i, h[i].sent, None) in after
    {
      assert Checkpoint(i, h[i].sent, None) in before;
    }
  }

  lemma CarriedMeans(
    recovering: bool, record: string, loaded: Option<Stored>, checkpoints: seq<Checkpoint>, h: History,
    session: Session, stopped: bool)
    requires Carried(recovering, record, loaded, checkpoints, h, session, stopped)
    ensures InSession(record, h, session) && Begun(loaded, checkpoints, h, session) && NoneFailed(checkpoints)
    ensures MayGoOn(recovering, h, stopped)
  {
  }

  /** A stop forbids nothing but what it forbids. */
  lemma CarriedStopped(
    recovering: bool, record: string, loaded: Option<Stored>, checkpoints: seq<Checkpoint>, h: History,
    session: Session)
    ensures Carried(recovering, record, loaded, checkpoints, h, session, false) ==>
              Carried(recovering, record, loaded, checkpoints, h, session, true)
  {
    hide InSession, Begun, Expires, Blocks;
  }

  lemma ValidatedOneMore(h: History, r: Request)
    ensures Validated(h + [r]) <==> Validated(h) || (r.op.Validate? && r.error.None?)
  {
    var longer := h + [r];
    if Validated(h) {
      var i :| 0 <= i < |h| && h[i].op.Validate? && h[i].error.None?;
      assert longer[i] == h[i];
    }
    assert longer[|h|] == r;
  }

  /** After an answer that is not fatal the session is the one prepared from it, and it is stored. */
  lemma AnswerTaken(
    recovering: bool, record: string, loaded: Option<Stored>, before: seq<Checkpoint>, after: seq<Checkpoint>,
    h: History, session: Session, stopped: bool)
    requires h != [] && Prepared(record, h[|h| - 1].returned, h[|h| - 1].sent) == Some(session)
    requires NoneFailed(before) && SavedOnce(before, after, |h|, session) && after[|before|].error.None?
    requires !Expires(recovering, h[|h| - 1].error) && (Blocks(recovering, h[|h| - 1].error) ==> stopped)
    ensures Carried(recovering, record, loaded, after, h, session, stopped)
  {
    hide Prepared, Expires, Blocks;
    assert after[|before|] == Checkpoint(|h|, session, None);
    forall c | c in after
      ensures c.error.None?
    {
      var k :| 0 <= k < |after| && after[k] == c;
      if k < |before| { assert c in before; }
    }
  }

  lemma RationedIsCharged(h: History, attempts: int, now: int)
    ensures Rationed(h, attempts, now) ==> Throttles(h) <= attempts <= MAX_RECOVERIES
  {
  }

  lemma PrefixOf(h: History, longer: History)
    requires h <= longer && |longer| == |h| + 1
    ensures longer[..|longer| - 1] == h
  {
  }

  lemma EmptyLog(recovering: bool, record: string)
    ensures LogKept(recovering, record, [], [], [])
  {
  }

  lemma EmptyTrack(recovering: bool, loaded: Option<Stored>, session: Session)
    requires loaded.None?
    ensures Rooted(loaded, "", [], []) && Carried(recovering, "", loaded, [], [], session, false)
  {
  }

  lemma NoRequestsYet(
    recovering: bool, record: string, record': string, cooldowns: seq<Cooldown>, removals: seq<Removal>)
    requires LogKept(recovering, record, [], cooldowns, removals)
    ensures LogKept(recovering, record', [], cooldowns, removals)
  {
  }

  lemma PacedLater(h: History, cooldowns: seq<Cooldown>)
    ensures forall now, now', delay, requested, last
              {:trigger Paced(h, cooldowns, now, delay, requested, last),
                        Paced(h, cooldowns, now', delay, requested, last)} ::
              now <= now' && Paced(h, cooldowns, now, delay, requested, last) ==>
              Paced(h, cooldowns, now', delay, requested, last)
  {
  }

  lemma RestedLater(h: History, cooldowns: seq<Cooldown>)
    ensures forall t, u, t', u' {:trigger Rested(h, cooldowns, t, u), Rested(h, cooldowns, t', u')} ::
              Rested(h, cooldowns, t, u) && t <= t' && u <= u' ==> Rested(h, cooldowns, t', u')
  {
  }
}
