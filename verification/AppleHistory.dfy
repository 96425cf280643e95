/**
 The Apple requests of one account group, in the order they were sent, with the
 answers and with Apple's own directory before and after each of them.
 The predicates say what the history must look like; nothing here depends on
 how the deletion run keeps its state.
 */
module AppleHistory {
  import opened Wrappers
  import opened Text
  import opened AppleErrors
  import opened AliasDirectory

  datatype Operation = Validate | List | Deactivate | Delete

  /** `hasTokens` stands for the identifiers, tokens and cookies besides the Apple ID. */
  datatype Session = Session(token: int, appleId: string, region: string, hasTokens: bool)

  /**
   `address` is the alias the run was working on, `owner` the mailbox of the account; `stopped` and `late`
   tell whether the group had been stopped, and the job cancelled, when the request was sent, and `read`
   whether the alias had by then been read for the current item: of this account and address, and not pending.
   `stamp` is the clock reading that admitted the request and `answered` the time of its answer.
   */
  datatype Request = Request(
    op: Operation, target: string, address: string, owner: string, stopped: bool, late: bool, read: bool,
    sent: Session, stamp: int, answered: int,
    error: Option<Err>, returned: Session, listing: Listing,
    before: set<RemoteAlias>, after: set<RemoteAlias>)

  datatype Cooldown = Cooldown(attempt: int, at: int, requestsBefore: nat)

  /**
   A local removal for the item in the given place was started when `upTo` requests had been sent, `since` of
   them for earlier items; `read` as in a request.
   */
  datatype Removal = Removal(aliasID: int, address: string, item: nat, since: nat, upTo: nat, read: bool)

  type History = seq<Request>

  predicate IsMutation(op: Operation) {
    op.Deactivate? || op.Delete?
  }

  /** False for the empty session that a failed transport returns. */
  predicate HasState(session: Session) {
    Trim(session.appleId) != "" || session.hasTokens
  }

  function NormalizeRegion(region: string): Option<string> {
    var lower := ToLower(Trim(region));
    if lower == "" || lower == "global" then Some("global")
    else if lower == "cn" || lower == "china" then Some("cn")
    else None
  }

  predicate OtherAppleId(record: string, session: Session) {
    Trim(session.appleId) != "" && ToLower(Trim(session.appleId)) != ToLower(Trim(record))
  }

  /**
   The session the next request must carry, unless the answer was for another Apple ID or an unknown
   region. What the answer omits is filled in from the record and the last session.
   */
  function Prepared(record: string, returned: Session, fallback: Session): Option<Session> {
    var session := if HasState(returned) then returned else fallback;
    if OtherAppleId(record, session) then None
    else
      var appleId := if Trim(session.appleId) == "" then Trim(record) else session.appleId;
      match NormalizeRegion(if session.region == "" then fallback.region else session.region)
      case None => None
      case Some(region) => Some(session.(appleId := appleId, region := region))
  }

  /** A region is read without the blanks around it and without regard to case; none at all is the global one. */
  lemma RegionMeans(a: string, x: string, b: string)
    requires Blank(a) && Blank(b) && Unpadded(x)
    ensures NormalizeRegion(a + x + b)
            == if x == "" || SameLetters(x, "global") then Some("global")
               else if SameLetters(x, "cn") || SameLetters(x, "china") then Some("cn")
               else None
  {
    TrimOf(a, x, b);
    LowerAlike(x, "global");
    LowerAlike(x, "cn");
    LowerAlike(x, "china");
    assert ToLower("global") == "global" && ToLower("cn") == "cn" && ToLower("china") == "china";
    assert |ToLower(x)| == |x|;
    hide Trim, ToLower, Blank, Unpadded, SameLetters;
  }

  /**
   The next session is the answer's if it names an Apple ID or has tokens, and the last one otherwise. It is refused
   exactly if that one names another Apple ID than the record's or an unknown region, and is then the record's,
   in one of the two regions.
   */
  lemma PreparedMeans(record: string, returned: Session, fallback: Session)
    ensures
      var carrier := if Trim(returned.appleId) != "" || returned.hasTokens then returned else fallback;
      var region := NormalizeRegion(if carrier.region != "" then carrier.region else fallback.region);
      var session := Prepared(record, returned, fallback);
      && (session.None? <==>
            (Trim(carrier.appleId) != "" && !SameLetters(Trim(carrier.appleId), Trim(record))) || region.None?)
      && (session.Some? ==>
            && session.value.token == carrier.token && session.value.hasTokens == carrier.hasTokens
            && session.value.appleId == (if Trim(carrier.appleId) == "" then Trim(record) else carrier.appleId)
            && SameLetters(Trim(session.value.appleId), Trim(record))
            && Some(session.value.region) == region && session.value.region in {"global", "cn"})
  {
    hide Trim, ToLower, SameLetters, Unpadded, Blank, NormalizeRegion;
    var carrier := if Trim(returned.appleId) != "" || returned.hasTokens then returned else fallback;
    LowerAlike(Trim(carrier.appleId), Trim(record));
    LowerAlike(Trim(record), Trim(record));
    TrimTwice(record);
    KnownRegion(if carrier.region != "" then carrier.region else fallback.region);
  }

  lemma KnownRegion(region: string)
    ensures NormalizeRegion(region).Some? ==> NormalizeRegion(region).value in {"global", "cn"}
  {
    hide Trim, ToLower;
  }

  function Hint(error: Option<Err>): (delay: int)
    ensures delay >= 0
  {
    if error.Some? then RetryDelay(error.value) else 0
  }

  // ---------------------------------------------------------------- observation

  predicate Listed(r: Request) {
    r.op.List? && r.error.None?
  }

  /** What the answers so far say about the directory. */
  ghost function Observed(h: History): Directory {
    if h == [] then map[]
    else
      var earlier, r := Observed(h[..|h| - 1]), h[|h| - 1];
      if r.error.Some? then earlier
      else match r.op
           case Validate => earlier
           case List => if WellFormed(r.listing.aliases) then Index(r.listing.aliases) else earlier
           case Deactivate => Deactivated(earlier, r.target)
           case Delete => Deleted(earlier, r.target)
  }

  /** Some complete listing was read, and no mutation has failed since. */
  ghost predicate Settled(h: History) {
    h != [] &&
    var r := h[|h| - 1];
    if Listed(r) && WellFormed(r.listing.aliases) then true
    else (IsMutation(r.op) ==> r.error.None?) && Settled(h[..|h| - 1])
  }

  lemma {:induction false} ObservedIdsDistinct(h: History)
    ensures DistinctIds(Observed(h))
  {
    hide NormalizeEmail, Trim, WellFormed, Index;
    if h != [] {
      ObservedIdsDistinct(h[..|h| - 1]);
      var r := h[|h| - 1];
      if Listed(r) && WellFormed(r.listing.aliases) {
        IndexLosesNothing(r.listing.aliases);
      }
    }
  }

  lemma ObservedOneMore(h: History, r: Request)
    ensures Observed(h + [r]) ==
            if r.error.Some? then Observed(h)
            else match r.op
                 case Validate => Observed(h)
                 case List => if WellFormed(r.listing.aliases) then Index(r.listing.aliases) else Observed(h)
                 case Deactivate => Deactivated(Observed(h), r.target)
                 case Delete => Deleted(Observed(h), r.target)
    ensures Settled(h + [r]) <==>
              || (Listed(r) && WellFormed(r.listing.aliases))
              || ((IsMutation(r.op) ==> r.error.None?) && Settled(h))
  {
    assert (h + [r])[..|h|] == h;
  }

  lemma ListingIsObserved(h: History)
    requires h != [] && Listed(h[|h| - 1]) && WellFormed(h[|h| - 1].listing.aliases)
    ensures Settled(h) && Observed(h) == Index(h[|h| - 1].listing.aliases)
  {
  }

  // ---------------------------------------------------------------- Apple's side

  /**
   Apple does what it says: a successful listing is its directory, an accepted mutation
   has its effect, a read changes nothing. A failed mutation may have had any effect.
   */
  ghost predicate HonestAnswer(r: Request) {
    match r.op
    case Validate => r.after == r.before
    case List => r.after == r.before && (r.error.None? ==> Entries(r.listing.aliases) == r.before)
    case Deactivate => r.error.None? ==> r.after == set a | a in r.before :: DeactivatedAlias(a, r.target)
    case Delete => r.error.None? ==> r.after == set a | a in r.before && RemoteId(a) != r.target
  }

  /** Apple is honest and nobody else changes the directory between two requests. */
  ghost predicate Exclusive(h: History) {
    && (forall i :: 0 <= i < |h| ==> HonestAnswer(h[i]))
    && (forall i :: 0 < i < |h| ==> h[i].before == h[i - 1].after)
  }

  /** Cache coherence: the observed directory is Apple's, entry by entry. */
  lemma {:induction false} ObservedMirrorsApple(h: History)
    requires Exclusive(h) && Settled(h)
    ensures Mirrors(Observed(h), h[|h| - 1].after)
  {
    var n := |h| - 1;
    var r := h[n];
    if Listed(r) && WellFormed(r.listing.aliases) {
      IndexLosesNothing(r.listing.aliases);
    } else {
      assert Exclusive(h[..n]);
      ObservedMirrorsApple(h[..n]);
      assert r.before == h[n - 1].after;
      if r.error.None? && r.op.Deactivate? {
        DeactivationKeepsMirror(Observed(h[..n]), r.before, r.target);
      } else if r.error.None? && r.op.Delete? {
        DeletionKeepsMirror(Observed(h[..n]), r.before, r.target);
      }
    }
  }

  // ---------------------------------------------------------------- what the run must keep

  /** Apple has accepted the session. */
  predicate Validated(h: History) {
    exists i :: 0 <= i < |h| && h[i].op.Validate? && h[i].error.None?
  }

  /**
   Nothing but a validation comes before the session was validated, and nothing but a listing after the job
   was cancelled. A mutation is for an alias that was read in this call, and names the remote ID of its
   address in an observation that no failed mutation has made doubtful, for an alias of this mailbox; a
   delete is for an inactive alias.
   */
  ghost predicate Justified(earlier: History, r: Request) {
    && (!r.op.Validate? ==> Validated(earlier)) && (r.late ==> r.op.List?)
    && (IsMutation(r.op) ==>
          && r.read && Settled(earlier)
          && r.address in Observed(earlier)
          && var seen := Observed(earlier)[r.address];
          && RemoteId(seen) == r.target != ""
          && SameEmail(seen.forwardTo, r.owner)
          && (seen.isActive <==> r.op.Deactivate?))
  }

  /** The answer ends the session. */
  predicate Expires(recovering: bool, error: Option<Err>) {
    error.Some? && EndsSession(recovering, error.value)
  }

  /** The answer blocks the account: refused credentials, an action of its owner, or an unrecovered throttle. */
  predicate Blocks(recovering: bool, error: Option<Err>) {
    error.Some? &&
    (|| RefusesCredentials(recovering, error.value) || AsksForAction(recovering, error.value)
     || (!recovering && ThrottlesAccount(error.value)))
  }

  /** Only a throttled validation is repeated, and only with throttle recovery. */
  predicate MayValidate(recovering: bool, h: History) {
    h != [] ==> recovering && h[|h| - 1].op.Validate? && Throttled(h[|h| - 1])
  }

  /** The last answer lets the group send, or lets a stopped group read. */
  predicate MayGoOn(recovering: bool, h: History, stopped: bool) {
    h != [] ==> !Expires(recovering, h[|h| - 1].error) && (Blocks(recovering, h[|h| - 1].error) ==> stopped)
  }

  /** Pacing (only with throttle recovery), the rolling session and the stop between neighbours. */
  predicate Follows(recovering: bool, record: string, p: Request, q: Request) {
    && (recovering ==> q.stamp >= p.stamp + SECOND && q.stamp >= p.answered + Hint(p.error))
    && Prepared(record, p.returned, p.sent) == Some(q.sent)
    && !Expires(recovering, p.error) && (Blocks(recovering, p.error) ==> q.stopped)
    && (q.op.Validate? ==> recovering && p.op.Validate? && Throttled(p))
  }

  /** After a stop nothing is sent but one listing, which is the last request of the group. */
  predicate StoppedOnlyLast(h: History) {
    forall i :: 0 <= i < |h| && h[i].stopped ==> h[i].op.List? && i == |h| - 1
  }

  ghost predicate WellRun(recovering: bool, record: string, h: History) {
    && (forall i :: 0 <= i < |h| ==> Justified(h[..i], h[i]))
    && (forall i :: 0 < i < |h| ==> Follows(recovering, record, h[i - 1], h[i]))
    && StoppedOnlyLast(h)
  }

  lemma WellRunOneMore(recovering: bool, record: string, h: History, r: Request)
    requires WellRun(recovering, record, h)
    requires Justified(h, r)
    requires h != [] ==> Follows(recovering, record, h[|h| - 1], r) && !h[|h| - 1].stopped
    requires r.stopped ==> r.op.List?
    ensures WellRun(recovering, record, h + [r])
  {
    hide Justified, Follows;
    var longer := h + [r];
    forall i | 0 <= i < |longer|
      ensures Justified(longer[..i], longer[i])
    {
      if i < |h| {
        assert longer[..i] == h[..i];
      } else {
        assert longer[..i] == h;
      }
    }
    forall i | 0 < i < |longer|
      ensures Follows(recovering, record, longer[i - 1], longer[i])
    {
    }
  }

  /**
   The permanent stop, read off the answers: after an expired session, or one that cannot be carried on,
   nothing is sent; after a blocking answer nothing but one listing.
   */
  predicate StopsHeeded(recovering: bool, record: string, h: History) {
    forall i :: 0 <= i < |h| ==> StopHeeded(recovering, record, h, i)
  }

  predicate StopHeeded(recovering: bool, record: string, h: History, i: nat)
    requires i < |h|
  {
    && (Expires(recovering, h[i].error) || Prepared(record, h[i].returned, h[i].sent).None? ==> i == |h| - 1)
    && (Blocks(recovering, h[i].error) && i + 1 < |h| ==> h[i + 1].op.List? && i + 1 == |h| - 1)
  }

  lemma WellRunHeedsStops(recovering: bool, record: string, h: History)
    requires WellRun(recovering, record, h)
    ensures StopsHeeded(recovering, record, h)
  {
    hide Justified, Expires, Blocks, Prepared, Hint, Throttled;
    forall i | 0 <= i < |h|
      ensures StopHeeded(recovering, record, h, i)
    {
      if i + 1 < |h| { assert Follows(recovering, record, h[i], h[i + 1]); }
    }
  }

  /** With recovery the next request waits until every hint of the answer before it has passed. */
  lemma HintsAreWaitedOut(record: string, h: History, i: nat, node: Err)
    requires WellRun(true, record, h) && i + 1 < |h|
    requires h[i].error.Some? && Within(node, h[i].error.value) && node.AppleError?
    ensures h[i + 1].stamp >= h[i].answered + node.retryAfter
  {
    assert Follows(true, record, h[i], h[i + 1]);
    RetryDelayIsLargestHint(h[i].error.value);
    hide WellRun, Within, RetryDelay, Prepared, Expires, Blocks;
  }

  /** Validations come first, and all but the last of them were throttled. */
  lemma {:induction false} ValidationsComeFirst(recovering: bool, record: string, h: History, i: nat, j: nat)
    requires WellRun(recovering, record, h) && i < j < |h|
    ensures h[j].op.Validate? ==> recovering && h[i].op.Validate? && Throttled(h[i])
    ensures !h[j].op.Validate? ==> Validated(h[..j])
    decreases j
  {
    assert Follows(recovering, record, h[j - 1], h[j]) && Justified(h[..j], h[j]);
    hide Justified, Follows, WellRun, Throttled;
    if h[j].op.Validate? && i < j - 1 {
      ValidationsComeFirst(recovering, record, h, i, j - 1);
    }
  }

  /** After the throttled answer that no recovery is left for, nothing is sent but one listing. */
  lemma FourthThrottleStops(recovering: bool, record: string, h: History, i: nat)
    requires WellRun(recovering, record, h) && ThrottlesKept(h)
    requires i + 1 < |h| && Throttled(h[i]) && Throttles(h[..i + 1]) > MAX_RECOVERIES
    ensures h[i + 1].op.List? && i + 1 == |h| - 1
  {
    assert h[..i + 1][i] == h[i];
    assert !Due(h[..i + 1], h[i + 1].stamp);
    hide Throttled, Justified, Follows, Throttles;
  }

  const MINUTE: int := 60 * SECOND

  /** time.Minute << (attempt - 1) */
  function Backoff(attempt: int): int {
    if attempt <= 1 then MINUTE else 2 * Backoff(attempt - 1)
  }

  const MAX_RECOVERIES: int := 3

  /** The answer was a throttle, and nothing that ends the account. */
  predicate Throttled(r: Request) {
    r.error.Some? && Recoverable(r.error.value)
  }

  /** The throttled answers so far. */
  function Throttles(h: History): nat {
    if h == [] then 0 else Throttles(h[..|h| - 1]) + (if Throttled(h[|h| - 1]) then 1 else 0)
  }

  /** A request at `stamp` comes late enough after the last answer: 2^(k-1) minutes after the k-th throttle. */
  predicate Due(h: History, stamp: int) {
    h != [] && Throttled(h[|h| - 1]) ==>
      && Throttles(h) <= MAX_RECOVERIES
      && stamp >= h[|h| - 1].answered + Backoff(Throttles(h))
  }

  /** Only the listing of a stopped group may come sooner. */
  predicate ThrottlesKept(h: History) {
    forall i :: 0 <= i < |h| && !h[i].stopped ==> Due(h[..i], h[i].stamp)
  }

  lemma ThrottlesOneMore(h: History, r: Request)
    requires ThrottlesKept(h) && (!r.stopped ==> Due(h, r.stamp))
    ensures ThrottlesKept(h + [r])
    ensures Throttles(h + [r]) == Throttles(h) + (if Throttled(r) then 1 else 0)
  {
    var longer := h + [r];
    assert longer[..|h|] == h;
    hide Due, Throttled;
    forall i | 0 <= i < |longer| && !longer[i].stopped
      ensures Due(longer[..i], longer[i].stamp)
    {
      if i < |h| { assert longer[..i] == h[..i]; }
    }
  }

  /** The k-th throttled answer is followed by at least 2^(k-1) quiet minutes, by a stop, or by nothing. */
  lemma ThrottlesAreWaitedOut(h: History, i: nat)
    requires ThrottlesKept(h) && i + 1 < |h| && Throttled(h[i]) && !h[i + 1].stopped
    ensures var k := |set j | 0 <= j <= i && Throttled(h[j])|;
            && 1 <= k <= 3 && Throttles(h[..i + 1]) == k
            && h[i + 1].stamp >= h[i].answered + (if k == 1 then 60 else if k == 2 then 120 else 240) * SECOND
  {
    assert h[..i + 1][i] == h[i];
    assert Due(h[..i + 1], h[i + 1].stamp);
    ThrottlesAreCounted(h, i + 1);
    assert i in set j | 0 <= j <= i && Throttled(h[j]);
    assert (set j | 0 <= j <= i && Throttled(h[j])) == set j | 0 <= j < i + 1 && Throttled(h[j]);
    assert Backoff(1) == MINUTE && Backoff(2) == 2 * MINUTE && Backoff(3) == 4 * MINUTE;
    hide Throttled, Backoff, Throttles;
  }

  lemma {:induction false} ThrottlesAreCounted(h: History, n: nat)
    requires n <= |h|
    ensures Throttles(h[..n]) == |set j | 0 <= j < n && Throttled(h[j])|
  {
    var throttled := set j | 0 <= j < n && Throttled(h[j]);
    if n == 0 {
      assert throttled == {};
    } else {
      hide Throttled;
      ThrottlesAreCounted(h, n - 1);
      assert h[..n][..n - 1] == h[..n - 1];
      var earlier := set j | 0 <= j < n - 1 && Throttled(h[j]);
      assert throttled == earlier + (if Throttled(h[n - 1]) then {n - 1} else {});
    }
  }

  /** The throttled answers after which the group went on. */
  function Recovered(h: History): nat {
    if |h| < 2 then 0
    else Recovered(h[..|h| - 1]) + (if Throttled(h[|h| - 2]) && !h[|h| - 1].stopped then 1 else 0)
  }

  /** A group goes on after at most three throttled answers. */
  lemma {:induction false} RecoveredAtMostThree(h: History)
    requires ThrottlesKept(h)
    ensures Recovered(h) <= 3
    ensures h != [] ==> Recovered(h) <= Throttles(h[..|h| - 1])
  {
    if |h| >= 2 {
      var front, m := h[..|h| - 1], |h| - 2;
      assert ThrottlesKept(front) by {
        hide Due;
        forall i | 0 <= i < |front| && !front[i].stopped
          ensures Due(front[..i], front[i].stamp)
        {
          assert front[..i] == h[..i] && front[i] == h[i];
        }
      }
      RecoveredAtMostThree(front);
      if Throttled(h[m]) && !h[m + 1].stopped {
        ThrottlesAreWaitedOut(h, m);
        assert h[..m + 1] == front;
      }
      hide Throttled, Due, ThrottlesKept;
    }
  }

  predicate Heard(h: History, now: int) {
    h != [] ==> now >= h[|h| - 1].answered
  }

  /** Every throttled answer has been paid for by a recovery, and its wait has passed. */
  predicate Rationed(h: History, attempts: int, now: int) {
    Throttles(h) <= attempts <= MAX_RECOVERIES && Due(h, now)
  }

  lemma RationedLater(h: History, attempts: int)
    ensures forall now, later {:trigger Rationed(h, attempts, now), Rationed(h, attempts, later)} ::
              now <= later && Rationed(h, attempts, now) ==> Rationed(h, attempts, later)
  {
  }

  lemma {:induction false} BackoffGrows(a: int, b: int)
    requires a <= b
    ensures Backoff(a) <= Backoff(b)
    decreases b - a
  {
    if a < b { BackoffGrows(a, b - 1); }
    BackoffPositive(b - 1);
  }

  lemma {:induction false} BackoffPositive(a: int)
    ensures Backoff(a) >= MINUTE
  {
    if a > 1 { BackoffPositive(a - 1); }
  }

  lemma WaitPays(h: History, attempts: int, then_: int, now: int)
    requires Throttles(h) <= attempts <= MAX_RECOVERIES && Heard(h, then_) && now >= then_ + Backoff(attempts)
    ensures Rationed(h, attempts, now)
  {
    BackoffGrows(Throttles(h), attempts);
    hide Throttled, Backoff;
  }

  lemma AnswerCounts(h: History, r: Request, attempts: int, now: int)
    requires Throttles(h) <= attempts <= MAX_RECOVERIES
    ensures Throttles(h + [r]) <= attempts + 1
    ensures !Throttled(r) ==> Rationed(h + [r], attempts, now)
  {
    assert (h + [r])[..|h|] == h;
    hide Throttled;
  }

  /** Throttle recoveries are numbered from 1, and the k-th is followed by 2^(k-1) quiet minutes. */
  predicate CooldownsKept(h: History, cooldowns: seq<Cooldown>) {
    forall i :: 0 <= i < |cooldowns| ==>
      && cooldowns[i].attempt == i + 1
      && cooldowns[i].requestsBefore <= |h|
      && (cooldowns[i].requestsBefore < |h| ==>
            h[cooldowns[i].requestsBefore].stamp >= cooldowns[i].at + Backoff(i + 1))
  }

  /**
   The last answer heard by one call confirms that the address is gone: Apple accepted the
   delete for it, or sent a complete listing without it.
   */
  ghost predicate Confirmed(h: History, since: nat, address: string) {
    since < |h| &&
    var r := h[|h| - 1];
    && r.error.None?
    && ((r.op.Delete? && r.address == address) ||
        (r.op.List? && WellFormed(r.listing.aliases) && address !in Index(r.listing.aliases)))
  }

  ghost predicate RemovalsConfirmed(h: History, removals: seq<Removal>) {
    forall i :: 0 <= i < |removals| ==>
      && removals[i].upTo <= |h| && removals[i].read
      && Confirmed(h[..removals[i].upTo], removals[i].since, removals[i].address)
  }

  lemma RemovalsConfirmedOneMore(h: History, removals: seq<Removal>, r: Request)
    requires RemovalsConfirmed(h, removals)
    ensures RemovalsConfirmed(h + [r], removals)
  {
    forall i | 0 <= i < |removals|
      ensures (h + [r])[..removals[i].upTo] == h[..removals[i].upTo]
    {
    }
  }

  /** What every request, cooldown and removal of a group keeps, from the first to the last. */
  ghost predicate LogKept(
    recovering: bool, record: string, h: History, cooldowns: seq<Cooldown>, removals: seq<Removal>)
  {
    && WellRun(recovering, record, h)
    && CooldownsKept(h, cooldowns)
    && (if recovering then ThrottlesKept(h) else cooldowns == [])
    && RemovalsConfirmed(h, removals)
  }

  /** The open cooldowns have passed at `t` and the last answer's hint at `u`. */
  ghost predicate Rested(h: History, cooldowns: seq<Cooldown>, t: int, u: int) {
    && (h != [] ==> u >= h[|h| - 1].answered + Hint(h[|h| - 1].error))
    && (forall i :: 0 <= i < |cooldowns| && cooldowns[i].requestsBefore == |h| ==>
          t >= cooldowns[i].at + Backoff(i + 1))
  }

  /** Once the pending server delay has passed, the next request is due. */
  ghost predicate Paced(
    h: History, cooldowns: seq<Cooldown>, now: int, delay: int, requested: bool, lastRequest: int)
  {
    && delay >= 0
    && Rested(h, cooldowns, now, now + delay)
    && (requested <==> h != [])
    && (requested ==> lastRequest == h[|h| - 1].stamp)
  }

  ghost predicate SpacedFrom(h: History, stamp: int) {
    h != [] ==> stamp >= h[|h| - 1].stamp + SECOND
  }

  ghost predicate InSession(record: string, h: History, session: Session) {
    h != [] ==> Prepared(record, h[|h| - 1].returned, h[|h| - 1].sent) == Some(session)
  }

  ghost predicate LastStopped(h: History) {
    h != [] && h[|h| - 1].stopped
  }

  lemma CooldownsOneMore(h: History, cooldowns: seq<Cooldown>, r: Request)
    requires CooldownsKept(h, cooldowns) && Rested(h, cooldowns, r.stamp, r.stamp)
    ensures CooldownsKept(h + [r], cooldowns)
  {
    hide Backoff, Hint;
  }

  lemma FollowsLast(record: string, recovering: bool, h: History, cooldowns: seq<Cooldown>, r: Request)
    requires h != [] && InSession(record, h, r.sent) && MayGoOn(recovering, h, r.stopped)
    requires r.op.Validate? ==> MayValidate(recovering, h)
    requires recovering ==> Rested(h, cooldowns, r.stamp, r.stamp) && SpacedFrom(h, r.stamp)
    ensures Follows(recovering, record, h[|h| - 1], r)
  {
    hide Backoff, Prepared, Hint, Expires, Blocks, Throttled;
  }

  lemma LogOneMore(
    recovering: bool, record: string, h: History, cooldowns: seq<Cooldown>, removals: seq<Removal>, r: Request)
    requires LogKept(recovering, record, h, cooldowns, removals)
    requires Justified(h, r) && InSession(record, h, r.sent) && MayGoOn(recovering, h, r.stopped) && !LastStopped(h)
    requires r.op.Validate? ==> MayValidate(recovering, h)
    requires recovering ==> Rested(h, cooldowns, r.stamp, r.stamp) && SpacedFrom(h, r.stamp)
    requires recovering && !r.stopped ==> Due(h, r.stamp)
    requires r.stopped ==> r.op.List?
    ensures LogKept(recovering, record, h + [r], cooldowns, removals)
  {
    if h != [] { FollowsLast(record, recovering, h, cooldowns, r); }
    hide Justified, Follows, InSession, Rested, SpacedFrom, WellRun, CooldownsKept, Confirmed, RemovalsConfirmed;
    hide Due, ThrottlesKept, MayGoOn, MayValidate;
    WellRunOneMore(recovering, record, h, r);
    RemovalsConfirmedOneMore(h, removals, r);
    if recovering {
      ThrottlesOneMore(h, r);
      CooldownsOneMore(h, cooldowns, r);
    } else {
      NoCooldowns(h + [r]);
    }
  }

  lemma NoCooldowns(h: History)
    ensures CooldownsKept(h, [])
  {
  }

  /** Every cooldown has been followed by a request. */
  predicate NoneOpen(h: History, cooldowns: seq<Cooldown>) {
    forall i :: 0 <= i < |cooldowns| ==> cooldowns[i].requestsBefore < |h|
  }

  lemma AnsweredLast(h: History, cooldowns: seq<Cooldown>, r: Request)
    requires CooldownsKept(h, cooldowns)
    ensures NoneOpen(h + [r], cooldowns)
  {
    hide Backoff;
  }

  /** After an answer only its own hint is still to be waited for. */
  lemma AnswerPaced(h: History, cooldowns: seq<Cooldown>, now: int)
    requires h != [] && NoneOpen(h, cooldowns) && now >= h[|h| - 1].answered
    ensures Paced(h, cooldowns, now, Hint(h[|h| - 1].error), true, h[|h| - 1].stamp)
  {
    hide Backoff;
  }

  lemma KeptCooldowns(
    recovering: bool, record: string, h: History, cooldowns: seq<Cooldown>, removals: seq<Removal>)
    requires LogKept(recovering, record, h, cooldowns, removals)
    ensures CooldownsKept(h, cooldowns)
  {
  }

  /** Apple first: a confirmed address is no longer in Apple's directory. */
  lemma ConfirmedMeansGoneAtApple(recovering: bool, record: string, h: History, since: nat, address: string)
    requires WellRun(recovering, record, h) && Exclusive(h)
    requires Confirmed(h, since, address)
    ensures forall a :: a in h[|h| - 1].after ==> Key(a) != address
  {
    var n := |h| - 1;
    var r := h[n];
    if r.op.List? {
      IndexLosesNothing(r.listing.aliases);
    } else {
      assert Justified(h[..n], r);
      hide Follows, StoppedOnlyLast, Validated, SameEmail;
      assert Exclusive(h[..n]);
      ObservedMirrorsApple(h[..n]);
      assert r.before == h[n - 1].after;
    }
  }

  /** Every local removal of a run was preceded by Apple's own removal. */
  lemma RemovedOnlyAfterApple(recovering: bool, record: string, h: History, removals: seq<Removal>)
    requires WellRun(recovering, record, h) && Exclusive(h)
    requires RemovalsConfirmed(h, removals)
    ensures forall i, a :: 0 <= i < |removals| && a in h[removals[i].upTo - 1].after ==> Key(a) != removals[i].address
  {
    forall i, a | 0 <= i < |removals| && a in h[removals[i].upTo - 1].after
      ensures Key(a) != removals[i].address
    {
      var p := h[..removals[i].upTo];
      WellRunPrefix(recovering, record, h, removals[i].upTo);
      ConfirmedMeansGoneAtApple(recovering, record, p, removals[i].since, removals[i].address);
    }
  }

  lemma WellRunPrefix(recovering: bool, record: string, h: History, n: nat)
    requires n <= |h| && WellRun(recovering, record, h)
    ensures WellRun(recovering, record, h[..n])
    ensures Exclusive(h) ==> Exclusive(h[..n])
  {
    forall i | 0 <= i < n
      ensures Justified(h[..n][..i], h[..n][i])
    {
      assert h[..n][..i] == h[..i];
    }
  }

  /** Any two requests of a recovering group are at least a second apart for each step between them. */
  lemma {:induction false} RequestsSpread(record: string, h: History, i: nat, j: nat)
    requires WellRun(true, record, h)
    requires i <= j < |h|
    ensures h[j].stamp >= h[i].stamp + (j - i) * SECOND
    decreases j
  {
    if i < j {
      RequestsSpread(record, h, i, j - 1);
      assert Follows(true, record, h[j - 1], h[j]);
    }
  }
}
