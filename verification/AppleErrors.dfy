/**
 Go error trees as the Apple client and the synchronization service build them:
 typed upstream errors, coded service errors, and wrapped or joined causes.
 */
module AppleErrors {
  import opened Wrappers
  import opened Text

  /** The sentinel errors that errors.Is is asked about. */
  datatype Kind =
    | Canceled | DeadlineExceeded
    | HMEUnavailable | HMEAuthentication | InvalidSession | Authentication
    | TwoFactorCode | TermsRequired | Service | NotFound
    | LoginRequired | SessionExpired | CredentialsInvalid | VerificationInvalid
    | AccountActionRequired | RateLimited | Upstream | HMEServiceUnavailable
    | ConfirmationPending | StoreConfirmationPending | AccountMismatch | AccountChanged
    | BatchDeferred

  datatype Code =
    | LoginRequiredCode | SessionExpiredCode | HMEUnavailableCode | HMEAuthenticationCode
    | CredentialsInvalidCode | VerificationInvalidCode | AccountActionRequiredCode
    | RateLimitedCode | UpstreamErrorCode | ConfirmationPendingCode
    | AccountMismatchCode | AccountChangedCode | BatchDeferredCode

  datatype Err =
    | Sentinel(kind: Kind)
    | AppleError(appleKind: Option<Kind>, status: int, serviceCode: string, retryAfter: int, cause: Option<Err>)
    | Coded(code: Code, codedKind: Kind, codedCause: Option<Err>)
    | Wrapped(child: Err)
    | Joined(children: seq<Err>)
    | Plain(message: string)

  const TOO_MANY_REQUESTS := 429
  const BATCH_THROTTLE := "-41015"

  /** `node` is `root` or one of the errors that unwrapping `root` reaches. */
  ghost predicate Within(node: Err, root: Err)
    decreases root
  {
    || node == root
    || match root {
         case Sentinel(_) => false
         case Plain(_) => false
         case AppleError(kind, _, _, _, cause) =>
           if cause.Some? then Within(node, cause.value)
           else kind.Some? && node == Sentinel(kind.value)
         case Coded(_, _, cause) => cause.Some? && Within(node, cause.value)
         case Wrapped(child) => Within(node, child)
         case Joined(children) => exists i :: 0 <= i < |children| && Within(node, children[i])
       }
  }

  function Max(a: int, b: int): int {
    if a < b then b else a
  }

  function RetryDelay(err: Err): (delay: int)
    ensures delay >= 0
    decreases err, 0
  {
    match err
    case Sentinel(_) => 0
    case Plain(_) => 0
    case AppleError(_, _, _, retryAfter, cause) =>
      Max(Max(0, retryAfter), if cause.Some? then RetryDelay(cause.value) else 0)
    case Coded(_, _, cause) => if cause.Some? then RetryDelay(cause.value) else 0
    case Wrapped(child) => RetryDelay(child)
    case Joined(children) => RetryDelays(children)
  }

  function RetryDelays(errs: seq<Err>): (delay: int)
    ensures delay >= 0
    decreases errs, 1
  {
    if errs == [] then 0 else Max(RetryDelays(errs[..|errs| - 1]), RetryDelay(errs[|errs| - 1]))
  }

  /** `delay` is the largest positive hint of `root`, or zero when there is none. */
  ghost predicate LargestHint(delay: int, root: Err) {
    && delay >= 0
    && (forall node :: Within(node, root) && node.AppleError? ==> node.retryAfter <= delay)
    && (delay > 0 ==> exists node :: Within(node, root) && node.AppleError? && node.retryAfter == delay)
  }

  lemma {:induction false} RetryDelayIsLargestHint(root: Err)
    ensures LargestHint(RetryDelay(root), root)
    decreases root, 0
  {
    match root
    case Sentinel(_) =>
    case Plain(_) =>
    case AppleError(_, _, _, _, cause) =>
      if cause.Some? {
        RetryDelayIsLargestHint(cause.value);
      }
      assert Within(root, root);
    case Coded(_, _, cause) =>
      if cause.Some? {
        RetryDelayIsLargestHint(cause.value);
      }
    case Wrapped(child) =>
      RetryDelayIsLargestHint(child);
    case Joined(children) =>
      RetryDelaysBoundEveryChild(children);
      var delay := RetryDelays(children);
      if delay > 0 {
        var i :| 0 <= i < |children| && RetryDelay(children[i]) == delay;
        RetryDelayIsLargestHint(children[i]);
        var node :| Within(node, children[i]) && node.AppleError? && node.retryAfter == delay;
        assert Within(node, root);
      }
      forall node | Within(node, root) && node.AppleError?
        ensures node.retryAfter <= delay
      {
        var i :| 0 <= i < |children| && Within(node, children[i]);
        RetryDelayIsLargestHint(children[i]);
      }
  }

  lemma {:induction false} RetryDelaysBoundEveryChild(errs: seq<Err>)
    ensures forall i :: 0 <= i < |errs| ==> RetryDelay(errs[i]) <= RetryDelays(errs)
    ensures RetryDelays(errs) > 0 ==> exists i :: 0 <= i < |errs| && RetryDelay(errs[i]) == RetryDelays(errs)
    decreases errs, 1
  {
    if errs != [] {
      var n := |errs| - 1;
      RetryDelaysBoundEveryChild(errs[..n]);
      if RetryDelays(errs[..n]) >= RetryDelay(errs[n]) && RetryDelays(errs) > 0 {
        var i :| 0 <= i < n && RetryDelay(errs[..n][i]) == RetryDelays(errs[..n]);
        assert RetryDelay(errs[i]) == RetryDelays(errs);
      }
    }
  }

  /** errors.Is against a sentinel. */
  predicate Is(err: Err, target: Kind)
    decreases err, 0
  {
    match err
    case Sentinel(kind) => kind == target
    case Plain(_) => false
    case AppleError(kind, _, _, _, cause) =>
      kind == Some(target) || (cause.Some? && Is(cause.value, target))
    case Coded(_, kind, cause) =>
      kind == target || (cause.Some? && Is(cause.value, target))
    case Wrapped(child) => Is(child, target)
    case Joined(children) => exists i :: 0 <= i < |children| && Is(children[i], target)
  }

  /** The error itself is, or is typed as, the sentinel. */
  predicate Carries(node: Err, target: Kind) {
    match node
    case Sentinel(kind) => kind == target
    case AppleError(kind, _, _, _, _) => kind == Some(target)
    case Coded(_, kind, _) => kind == target
    case _ => false
  }

  lemma {:induction false} IsExactlyWhenSomeNodeIs(root: Err, target: Kind)
    ensures Is(root, target) <==> exists node :: Within(node, root) && Carries(node, target)
  {
    if Carries(root, target) {
      assert Within(root, root);
    }
    match root
    case Sentinel(_) =>
    case Plain(_) =>
    case AppleError(_, _, _, _, cause) =>
      if cause.Some? {
        IsExactlyWhenSomeNodeIs(cause.value, target);
      }
    case Coded(_, _, cause) =>
      if cause.Some? {
        IsExactlyWhenSomeNodeIs(cause.value, target);
      }
    case Wrapped(child) =>
      IsExactlyWhenSomeNodeIs(child, target);
    case Joined(children) =>
      forall i | 0 <= i < |children|
        ensures Is(children[i], target) <==> exists node :: Within(node, children[i]) && Carries(node, target)
      {
        IsExactlyWhenSomeNodeIs(children[i], target);
      }
      if node :| Within(node, root) && Carries(node, target) {
        var i :| 0 <= i < |children| && Within(node, children[i]);
        assert Is(children[i], target);
      }
      if i :| 0 <= i < |children| && Is(children[i], target) {
        var node :| Within(node, children[i]) && Carries(node, target);
        assert Within(node, root);
      }
  }

  predicate ThrottleNode(err: Err) {
    err.AppleError? && (err.status == TOO_MANY_REQUESTS || Trim(err.serviceCode) == BATCH_THROTTLE)
  }

  /** Throttled anywhere in the tree, by HTTP status or by service code. */
  predicate IsRateLimited(err: Err)
    decreases err, 0
  {
    || ThrottleNode(err)
    || match err {
         case AppleError(_, _, _, _, cause) => cause.Some? && IsRateLimited(cause.value)
         case Coded(_, _, cause) => cause.Some? && IsRateLimited(cause.value)
         case Wrapped(child) => IsRateLimited(child)
         case Joined(children) => exists i :: 0 <= i < |children| && IsRateLimited(children[i])
         case _ => false
       }
  }

  lemma {:induction false} RateLimitedExactlyWhenSomeNodeIs(root: Err)
    ensures IsRateLimited(root) <==>
              exists node :: Within(node, root) && node.AppleError?
                             && (node.status == 429 || Trim(node.serviceCode) == "-41015")
  {
    hide Trim;
    if ThrottleNode(root) {
      assert Within(root, root);
    }
    match root
    case Sentinel(_) =>
    case Plain(_) =>
    case AppleError(_, _, _, _, cause) =>
      if cause.Some? {
        RateLimitedExactlyWhenSomeNodeIs(cause.value);
      }
    case Coded(_, _, cause) =>
      if cause.Some? {
        RateLimitedExactlyWhenSomeNodeIs(cause.value);
      }
    case Wrapped(child) =>
      RateLimitedExactlyWhenSomeNodeIs(child);
    case Joined(children) =>
      forall i | 0 <= i < |children|
        ensures IsRateLimited(children[i]) <==>
                  exists node :: Within(node, children[i]) && node.AppleError?
                                 && (node.status == 429 || Trim(node.serviceCode) == "-41015")
      {
        RateLimitedExactlyWhenSomeNodeIs(children[i]);
      }
      if node :| Within(node, root) && ThrottleNode(node) {
        var i :| 0 <= i < |children| && Within(node, children[i]);
        assert IsRateLimited(children[i]);
      }
      if i :| 0 <= i < |children| && IsRateLimited(children[i]) {
        var node :| Within(node, children[i]) && ThrottleNode(node);
        assert Within(node, root);
      }
  }

  /** The code of the first coded error in the tree, which is what errors.As finds. */
  function CodeOf(err: Err): Option<Code>
    decreases err, 0
  {
    match err
    case Sentinel(_) => None
    case Plain(_) => None
    case AppleError(_, _, _, _, cause) => if cause.Some? then CodeOf(cause.value) else None
    case Coded(code, _, _) => Some(code)
    case Wrapped(child) => CodeOf(child)
    case Joined(children) => FirstCode(children)
  }

  function FirstCode(errs: seq<Err>): Option<Code>
    decreases errs, 1
  {
    if errs == [] then None
    else if CodeOf(errs[0]).Some? then CodeOf(errs[0])
    else FirstCode(errs[1..])
  }

  /** mapAppleError outside code verification. */
  function MapAppleError(err: Err): Err {
    if Is(err, Canceled) || Is(err, DeadlineExceeded) then err
    else if Is(err, HMEUnavailable) then Coded(HMEUnavailableCode, HMEServiceUnavailable, Some(err))
    else if Is(err, HMEAuthentication) then Coded(HMEAuthenticationCode, AccountActionRequired, Some(err))
    else if Is(err, InvalidSession) then Coded(SessionExpiredCode, SessionExpired, Some(err))
    else if Is(err, Authentication) then Coded(CredentialsInvalidCode, CredentialsInvalid, Some(err))
    else if Is(err, TwoFactorCode) then Coded(VerificationInvalidCode, VerificationInvalid, Some(err))
    else if Is(err, TermsRequired) then Coded(AccountActionRequiredCode, AccountActionRequired, Some(err))
    else if IsRateLimited(err) then Coded(RateLimitedCode, RateLimited, Some(err))
    else Coded(UpstreamErrorCode, Upstream, Some(err))
  }

  /** The reclassification of a throttled answer while throttle recovery is on. */
  function MapThrottled(err: Err): Err {
    if Is(err, InvalidSession) then Coded(SessionExpiredCode, SessionExpired, Some(err))
    else if Is(err, Authentication) then Coded(CredentialsInvalidCode, CredentialsInvalid, Some(err))
    else if Is(err, TermsRequired) then Coded(AccountActionRequiredCode, AccountActionRequired, Some(err))
    else if Is(err, TwoFactorCode) then Coded(VerificationInvalidCode, VerificationInvalid, Some(err))
    else Coded(RateLimitedCode, RateLimited, Some(err))
  }

  /** The error an answered request is reported as. */
  function Classify(recovering: bool, err: Err): Err {
    if recovering && IsRateLimited(err) then MapThrottled(err) else MapAppleError(err)
  }

  // ---------------------------------------------------------------- what an answer means, on its own tree

  /** The request was given up, so the answer says nothing about the account. */
  predicate GivenUp(err: Err) { Is(err, Canceled) || Is(err, DeadlineExceeded) }

  /** The fault lies with the Hide My Email service itself. */
  predicate ServiceFault(err: Err) { Is(err, HMEUnavailable) || Is(err, HMEAuthentication) }

  /** With throttle recovery a throttled answer is read as one, whatever else it is. */
  predicate ReadAsThrottle(recovering: bool, err: Err) { recovering && IsRateLimited(err) }

  predicate EndsSession(recovering: bool, err: Err) {
    || Is(err, SessionExpired)
    || (Is(err, InvalidSession) && (ReadAsThrottle(recovering, err) || (!GivenUp(err) && !ServiceFault(err))))
  }

  predicate RefusesCredentials(recovering: bool, err: Err) {
    || Is(err, CredentialsInvalid)
    || (Is(err, Authentication) && !Is(err, InvalidSession)
        && (ReadAsThrottle(recovering, err) || (!GivenUp(err) && !ServiceFault(err))))
  }

  /** Terms to accept, or a service that must be set up, unless another error of the answer goes before. */
  predicate AsksForAction(recovering: bool, err: Err) {
    || Is(err, AccountActionRequired)
    || (Is(err, TermsRequired) && !Is(err, InvalidSession) && !Is(err, Authentication)
        && (ReadAsThrottle(recovering, err) || (!GivenUp(err) && !ServiceFault(err) && !Is(err, TwoFactorCode))))
    || (Is(err, HMEAuthentication) && !Is(err, HMEUnavailable)
        && !ReadAsThrottle(recovering, err) && !GivenUp(err))
  }

  /** Nothing in the answer says more than a throttle. */
  predicate NothingWorse(err: Err) {
    !Is(err, InvalidSession) && !Is(err, Authentication) && !Is(err, TermsRequired) && !Is(err, TwoFactorCode)
  }

  /** A throttle, and not one to recover from. */
  predicate ThrottlesAccount(err: Err) {
    || Is(err, RateLimited)
    || (IsRateLimited(err) && NothingWorse(err) && !GivenUp(err) && !ServiceFault(err))
  }

  /** The answer asks for a throttle recovery. */
  predicate Recoverable(err: Err) {
    if IsRateLimited(err) then NothingWorse(err)
    else GivenUp(err) && CodeOf(err) == Some(RateLimitedCode)
  }

  /** The classification keeps exactly that meaning. */
  lemma ClassifyMeans(recovering: bool, err: Err)
    ensures Is(Classify(recovering, err), SessionExpired) <==> EndsSession(recovering, err)
    ensures Is(Classify(recovering, err), CredentialsInvalid) <==> RefusesCredentials(recovering, err)
    ensures Is(Classify(recovering, err), AccountActionRequired) <==> AsksForAction(recovering, err)
    ensures Is(Classify(false, err), RateLimited) <==> ThrottlesAccount(err)
    ensures CodeOf(Classify(true, err)) == Some(RateLimitedCode) <==> Recoverable(err)
  {
    ClassifyKeeps(recovering, err, SessionExpired);
    ClassifyKeeps(recovering, err, CredentialsInvalid);
    ClassifyKeeps(recovering, err, AccountActionRequired);
    ClassifyKeeps(false, err, RateLimited);
    hide Is, IsRateLimited;
  }

  /** The classification wraps the answer in one typed error, unless the request was given up. */
  lemma ClassifyKeeps(recovering: bool, err: Err, target: Kind)
    ensures var mapped := Classify(recovering, err);
            if GivenUp(err) && !ReadAsThrottle(recovering, err) then mapped == err
            else
              && mapped.Coded? && mapped.codedCause == Some(err)
              && (Is(mapped, target) <==> Is(err, target) || mapped.codedKind == target)
              && CodeOf(mapped) == Some(mapped.code)
  {
    var mapped := Classify(recovering, err);
    if mapped.Coded? { WrappedIs(mapped.code, mapped.codedKind, err, target); }
    hide Is, IsRateLimited;
  }

  lemma WrappedIs(code: Code, kind: Kind, err: Err, target: Kind)
    ensures Is(Coded(code, kind, Some(err)), target) <==> kind == target || Is(err, target)
    ensures CodeOf(Coded(code, kind, Some(err))) == Some(code)
  {
  }

  /** The sentinel that goes with each code of a classified answer. */
  function KindOf(code: Code): Option<Kind> {
    match code
    case HMEUnavailableCode => Some(HMEServiceUnavailable)
    case HMEAuthenticationCode => Some(AccountActionRequired)
    case SessionExpiredCode => Some(SessionExpired)
    case CredentialsInvalidCode => Some(CredentialsInvalid)
    case VerificationInvalidCode => Some(VerificationInvalid)
    case AccountActionRequiredCode => Some(AccountActionRequired)
    case RateLimitedCode => Some(RateLimited)
    case UpstreamErrorCode => Some(Upstream)
    case _ => None
  }

  /** When an answer is given which code; one that fits none of the others is an upstream error. */
  lemma ClassifyCodes(recovering: bool, err: Err)
    requires !GivenUp(err) || ReadAsThrottle(recovering, err)
    ensures var mapped, throttle := Classify(recovering, err), ReadAsThrottle(recovering, err);
            && mapped.Coded? && mapped.codedCause == Some(err) && KindOf(mapped.code) == Some(mapped.codedKind)
            && (mapped.code == HMEUnavailableCode <==> !throttle && Is(err, HMEUnavailable))
            && (mapped.code == HMEAuthenticationCode <==>
                  !throttle && Is(err, HMEAuthentication) && !Is(err, HMEUnavailable))
            && (mapped.code == SessionExpiredCode <==> Is(err, InvalidSession) && (throttle || !ServiceFault(err)))
            && (mapped.code == CredentialsInvalidCode <==>
                  Is(err, Authentication) && !Is(err, InvalidSession) && (throttle || !ServiceFault(err)))
            && (mapped.code == VerificationInvalidCode <==>
                  && Is(err, TwoFactorCode) && !Is(err, InvalidSession) && !Is(err, Authentication)
                  && (if throttle then !Is(err, TermsRequired) else !ServiceFault(err)))
            && (mapped.code == AccountActionRequiredCode <==>
                  && Is(err, TermsRequired) && !Is(err, InvalidSession) && !Is(err, Authentication)
                  && (throttle || (!ServiceFault(err) && !Is(err, TwoFactorCode))))
            && (mapped.code == RateLimitedCode <==>
                  IsRateLimited(err) && NothingWorse(err) && (throttle || !ServiceFault(err)))
  {
    hide Is, IsRateLimited;
  }

  /** A code is found exactly if some coded error is in the tree, and then it is the code of one. */
  lemma {:induction false} CodeIsInTree(root: Err)
    ensures CodeOf(root).Some? <==> exists node :: Within(node, root) && node.Coded?
    ensures CodeOf(root).Some? ==>
              exists node :: Within(node, root) && node.Coded? && Some(node.code) == CodeOf(root)
    decreases root, 0
  {
    match root
    case Sentinel(_) =>
    case Plain(_) =>
    case AppleError(_, _, _, _, cause) =>
      if cause.Some? {
        CodeIsInTree(cause.value);
      }
    case Coded(_, _, _) =>
      assert Within(root, root);
    case Wrapped(child) =>
      CodeIsInTree(child);
    case Joined(children) =>
      FirstCodeIsInTree(children);
      if i: nat :| i < |children| && exists node :: Within(node, children[i]) && node.Coded?
                                                    && Some(node.code) == CodeOf(root) {
        var node :| Within(node, children[i]) && node.Coded? && Some(node.code) == CodeOf(root);
        assert Within(node, root);
      }
      if node :| Within(node, root) && node.Coded? {
        var i :| 0 <= i < |children| && Within(node, children[i]);
      }
  }

  lemma {:induction false} FirstCodeIsInTree(errs: seq<Err>)
    ensures FirstCode(errs).Some? <==> exists i, node :: 0 <= i < |errs| && Within(node, errs[i]) && node.Coded?
    ensures FirstCode(errs).Some? ==>
              exists i, node :: 0 <= i < |errs| && Within(node, errs[i]) && node.Coded?
                                && Some(node.code) == FirstCode(errs)
    decreases errs, 1
  {
    if errs != [] {
      CodeIsInTree(errs[0]);
      FirstCodeIsInTree(errs[1..]);
      if CodeOf(errs[0]).Some? {
        var node :| Within(node, errs[0]) && node.Coded? && Some(node.code) == CodeOf(errs[0]);
      } else {
        forall i | 0 <= i < |errs| - 1
          ensures errs[1..][i] == errs[i + 1]
        {
        }
      }
    }
  }

  /** Of the parts of a joined error the first one with a code gives it. */
  lemma {:induction false} FirstCodeComesFirst(errs: seq<Err>, i: nat)
    requires i < |errs| && CodeOf(errs[i]).Some? && forall j :: 0 <= j < i ==> CodeOf(errs[j]).None?
    ensures CodeOf(Joined(errs)) == CodeOf(errs[i])
  {
    if i > 0 {
      assert CodeOf(errs[0]).None? && FirstCode(errs) == FirstCode(errs[1..]);
      assert forall j :: 0 <= j < i - 1 ==> errs[1..][j] == errs[j + 1];
      FirstCodeComesFirst(errs[1..], i - 1);
      assert CodeOf(Joined(errs[1..])) == FirstCode(errs[1..]);
    }
    hide CodeOf;
  }

  function MaxDuration(): int { 0x7fff_ffff_ffff_ffff }

  const SECOND: int := 1_000_000_000

  predicate IsDigit(c: char) {
    '0' <= c <= '9'
  }

  function Digit(c: char): nat
    requires IsDigit(c)
  {
    c as int - '0' as int
  }

  ghost function DecimalValue(s: string): nat
    requires forall i :: 0 <= i < |s| ==> IsDigit(s[i])
  {
    if s == "" then 0 else 10 * DecimalValue(s[..|s| - 1]) + Digit(s[|s| - 1])
  }

  /** strconv.ParseUint in base 10 with 64 bits; None is its range error. */
  method ParseUint(s: string) returns (r: Option<nat>)
    requires forall i :: 0 <= i < |s| ==> IsDigit(s[i])
    ensures r == if DecimalValue(s) < 0x1_0000_0000_0000_0000 then Some(DecimalValue(s)) else None
  {
    var n: nat := 0;
    for i := 0 to |s|
      invariant n == DecimalValue(s[..i]) < 0x1_0000_0000_0000_0000
    {
      assert s[..i + 1][..i] == s[..i];
      var next := 10 * n + Digit(s[i]);
      assert next == DecimalValue(s[..i + 1]);
      if next >= 0x1_0000_0000_0000_0000 {
        LongerIsNotSmaller(s, i + 1);
        return None;
      }
      n := next;
    }
    assert s[..|s|] == s;
    r := Some(n);
  }

  lemma {:induction false} LongerIsNotSmaller(s: string, k: nat)
    requires k <= |s|
    requires forall i :: 0 <= i < |s| ==> IsDigit(s[i])
    ensures DecimalValue(s[..k]) <= DecimalValue(s)
    decreases |s| - k
  {
    if k < |s| {
      assert s[..k + 1][..k] == s[..k];
      LongerIsNotSmaller(s, k + 1);
    } else {
      assert s[..k] == s;
    }
  }

  /**
   The delay-seconds branch of parseRetryAfter for a value that starts with a digit:
   the named number of seconds, never wrapped and never cut short of the largest duration.
   */
  method ParseDelaySeconds(value: string) returns (delay: int)
    requires value != "" && IsDigit(value[0])
    ensures (exists i :: 0 <= i < |value| && !IsDigit(value[i])) ==> delay == 0
    ensures (forall i :: 0 <= i < |value| ==> IsDigit(value[i])) ==>
              && delay <= DecimalValue(value) * SECOND
              && delay <= MaxDuration()
              && (delay < DecimalValue(value) * SECOND ==> delay == MaxDuration())
  {
    for i := 0 to |value|
      invariant forall j :: 0 <= j < i ==> IsDigit(value[j])
    {
      if !IsDigit(value[i]) {
        return 0;
      }
    }
    var seconds := ParseUint(value);
    if seconds.None? || seconds.value > MaxDuration() / SECOND {
      return MaxDuration();
    }
    return seconds.value * SECOND;
  }
}
