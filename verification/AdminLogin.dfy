/** Platform-admin sign-in: the lockout ladder and the second factor
    (services/api/routers/admin_auth.py, packages/acip_auth/totp.py). The password
    check is a given verdict and the HMAC code of a time step a given function. */
module AdminLogin {
  import opened Wrappers
  import CacheKeys

  /** The code of a secret's time step. */
  type Codes = (string, int) -> string

  const STEP_SECONDS := 30.0

  function StepAt(t: real): int {
    (t / STEP_SECONDS).Floor
  }

  lemma StepShift(t: real, k: int)
    ensures StepAt(t + k as real * STEP_SECONDS) == StepAt(t) + k
  {
  }

  predicate IsCode(s: string) {
    |s| == 6 && forall c :: c in s ==> '0' <= c <= '9'
  }

  function WithoutSpaces(s: string): string {
    if s == "" then "" else if s[0] == ' ' then WithoutSpaces(s[1..]) else [s[0]] + WithoutSpaces(s[1..])
  }

  function Clean(code: string): string {
    WithoutSpaces(CacheKeys.StripRight(CacheKeys.StripLeft(code)))
  }

  predicate Matches(codes: Codes, secret: string, code: string, step: int) {
    IsCode(Clean(code)) && codes(secret, step) == Clean(code)
  }

  /** Is `step` what checking the code around the current step must return: the
      latest matching one, or nothing if none matches? */
  ghost predicate LatestMatch(codes: Codes, secret: string, code: string, around: int, window: nat, step: Option<int>) {
    match step
    case None => forall k :: around - window <= k <= around + window ==> !Matches(codes, secret, code, k)
    case Some(s) =>
      around - window <= s <= around + window && Matches(codes, secret, code, s)
      && forall k :: s < k <= around + window ==> !Matches(codes, secret, code, k)
  }

  /** `verify_totp_step`: every step of the window is checked, the last match kept. */
  method VerifyTotpStep(codes: Codes, secret: string, code: string, window: nat, now: real)
    returns (matched: Option<int>)
    ensures LatestMatch(codes, secret, code, StepAt(now), window, matched)
  {
    var cleaned := Clean(code);
    if !IsCode(cleaned) {
      return None;
    }
    matched := None;
    for offset: int := -(window as int) to window + 1
      invariant match matched
                case None =>
                  forall k :: StepAt(now) - window <= k < StepAt(now) + offset ==> !Matches(codes, secret, code, k)
                case Some(s) =>
                  StepAt(now) - window <= s < StepAt(now) + offset && Matches(codes, secret, code, s)
                  && forall k :: s < k < StepAt(now) + offset ==> !Matches(codes, secret, code, k)
    {
      var ts := now + offset as real * STEP_SECONDS;
      StepShift(now, offset);
      if codes(secret, StepAt(ts)) == cleaned {
        matched := Some(StepAt(ts));
      }
    }
  }

  lemma LatestMatchUnique(codes: Codes, secret: string, code: string, around: int, window: nat, m: Option<int>,
                          n: Option<int>)
    requires LatestMatch(codes, secret, code, around, window, m) && LatestMatch(codes, secret, code, around, window, n)
    ensures m == n
  {
  }

  function Latest(codes: Codes, secret: string, code: string, low: int, high: int): Option<int>
    decreases high - low
  {
    if high < low then None
    else if Matches(codes, secret, code, high) then Some(high)
    else Latest(codes, secret, code, low, high - 1)
  }

  lemma {:induction false} LatestIsLatest(codes: Codes, secret: string, code: string, low: int, high: int)
    ensures match Latest(codes, secret, code, low, high)
            case None => forall k :: low <= k <= high ==> !Matches(codes, secret, code, k)
            case Some(s) =>
              low <= s <= high && Matches(codes, secret, code, s)
              && forall k :: s < k <= high ==> !Matches(codes, secret, code, k)
    decreases high - low
  {
    if low <= high {
      LatestIsLatest(codes, secret, code, low, high - 1);
    }
  }

  /** The step a code is taken for now, one step of clock skew either way. */
  function TotpStep(codes: Codes, secret: string, code: string, now: real): Option<int> {
    Latest(codes, secret, code, StepAt(now) - 1, StepAt(now) + 1)
  }

  // ---- the account -----------------------------------------------------------------------------

  datatype Admin = Admin(active: bool, failed: int, lockedUntil: Option<real>,
                         enabled: bool, secret: Option<string>, lastStep: int)

  datatype Policy = Policy(maxAttempts: int, lockout: real)

  datatype Event =
    | Login(now: real, passwordOk: bool, code: string)
    | Unlock
    | Enroll(passwordOk: bool, secret: string)
    | Confirm(now: real, code: string)
    | Disable(now: real, passwordOk: bool, code: string)
    | SetActive(active: bool)

  datatype Outcome =
    | SignedIn(step: Option<int>)
    | CountedFailure
    | CodeRequired
    | Locked
    | Inactive
    | Accepted
    | Refused

  function Failed(p: Policy, a: Admin, now: real): Admin {
    a.(failed := a.failed + 1, lockedUntil := if a.failed + 1 >= p.maxAttempts then Some(now + p.lockout) else None)
  }

  function SecretOf(a: Admin): string {
    if a.secret.Some? then a.secret.value else "None"
  }

  function AfterLogin(p: Policy, codes: Codes, a: Admin, now: real, passwordOk: bool, code: string): (Admin, Outcome) {
    var cleared := a.(failed := 0, lockedUntil := None);
    if !a.active then (a, Inactive)
    else if a.lockedUntil.Some? && a.lockedUntil.value > now then (a, Locked)
    else if !passwordOk then (Failed(p, a, now), CountedFailure)
    else if !a.enabled then (cleared, SignedIn(None))
    else if CacheKeys.StripRight(CacheKeys.StripLeft(code)) == "" then (a, CodeRequired)
    else
      var step := TotpStep(codes, SecretOf(a), code, now);
      if step.None? || step.value <= a.lastStep then (Failed(p, a, now), CountedFailure)
      else (cleared.(lastStep := step.value), SignedIn(step))
  }

  function After(p: Policy, codes: Codes, a: Admin, e: Event): (Admin, Outcome) {
    match e
    case Login(now, passwordOk, code) => AfterLogin(p, codes, a, now, passwordOk, code)
    case Unlock => (a.(failed := 0, lockedUntil := None), Accepted)
    case Enroll(passwordOk, secret) =>
      if passwordOk && !a.enabled then (a.(secret := Some(secret)), Accepted) else (a, Refused)
    case Confirm(now, code) =>
      if a.secret.None? || a.enabled then (a, Refused)
      else
        var step := TotpStep(codes, a.secret.value, code, now);
        if step.None? then (a, Refused) else (a.(enabled := true, lastStep := step.value), Accepted)
    case Disable(now, passwordOk, code) =>
      if a.enabled && passwordOk && TotpStep(codes, SecretOf(a), code, now).Some?
      then (a.(enabled := false, secret := None), Accepted) else (a, Refused)
    case SetActive(active) => (a.(active := active), Accepted)
  }

  class Account {
    const policy: Policy
    var admin: Admin

    constructor (policy: Policy, admin: Admin)
      ensures this.policy == policy && this.admin == admin
    {
      this.policy, this.admin := policy, admin;
    }

    /** A counted failure: one more attempt, and a lock once they are used up. */
    method CountFailure(now: real)
      modifies this
      ensures admin == Failed(policy, old(admin), now)
    {
      var attempts := admin.failed + 1;
      var until := if attempts >= policy.maxAttempts then Some(now + policy.lockout) else None;
      admin := admin.(failed := attempts, lockedUntil := until);
    }

    /** `login`. */
    method Login(codes: Codes, now: real, passwordOk: bool, code: string) returns (o: Outcome)
      modifies this
      ensures (admin, o) == AfterLogin(policy, codes, old(admin), now, passwordOk, code)
    {
      if !admin.active {
        return Inactive;
      }
      if admin.lockedUntil.Some? && admin.lockedUntil.value > now {
        return Locked;
      }
      if !passwordOk {
        CountFailure(now);
        return CountedFailure;
      }
      var accepted: Option<int> := None;
      if admin.enabled {
        if CacheKeys.StripRight(CacheKeys.StripLeft(code)) == "" {
          return CodeRequired;
        }
        var step := VerifyTotpStep(codes, SecretOf(admin), code, 1, now);
        LatestIsLatest(codes, SecretOf(admin), code, StepAt(now) - 1, StepAt(now) + 1);
        LatestMatchUnique(codes, SecretOf(admin), code, StepAt(now), 1, step,
                          TotpStep(codes, SecretOf(admin), code, now));
        if step.None? || step.value <= admin.lastStep {
          CountFailure(now);
          return CountedFailure;
        }
        admin := admin.(lastStep := step.value);
        accepted := step;
      }
      admin := admin.(failed := 0, lockedUntil := None);
      o := SignedIn(accepted);
    }

    /** `unlock_account`. */
    method Unlock()
      modifies this
      ensures admin == After(policy, (s: string, k: int) => "", old(admin), Event.Unlock).0
    {
      admin := admin.(failed := 0, lockedUntil := None);
    }

    /** `totp_enroll`: a fresh secret, not enforced yet. */
    method Enroll(codes: Codes, passwordOk: bool, secret: string) returns (o: Outcome)
      modifies this
      ensures (admin, o) == After(policy, codes, old(admin), Event.Enroll(passwordOk, secret))
    {
      if !passwordOk || admin.enabled {
        return Refused;
      }
      admin := admin.(secret := Some(secret));
      o := Accepted;
    }

    /** `totp_confirm`: enforcement on, the confirming step used up. */
    method Confirm(codes: Codes, now: real, code: string) returns (o: Outcome)
      modifies this
      ensures (admin, o) == After(policy, codes, old(admin), Event.Confirm(now, code))
    {
      if admin.secret.None? || admin.enabled {
        return Refused;
      }
      var step := VerifyTotpStep(codes, admin.secret.value, code, 1, now);
      LatestIsLatest(codes, admin.secret.value, code, StepAt(now) - 1, StepAt(now) + 1);
      LatestMatchUnique(codes, admin.secret.value, code, StepAt(now), 1, step,
                        TotpStep(codes, admin.secret.value, code, now));
      if step.None? {
        return Refused;
      }
      admin := admin.(enabled := true, lastStep := step.value);
      o := Accepted;
    }

    /** `totp_disable`: needs the password and any live code. */
    method Disable(codes: Codes, now: real, passwordOk: bool, code: string) returns (o: Outcome)
      modifies this
      ensures (admin, o) == After(policy, codes, old(admin), Event.Disable(now, passwordOk, code))
    {
      if !admin.enabled || !passwordOk {
        return Refused;
      }
      var step := VerifyTotpStep(codes, SecretOf(admin), code, 1, now);
      LatestIsLatest(codes, SecretOf(admin), code, StepAt(now) - 1, StepAt(now) + 1);
      LatestMatchUnique(codes, SecretOf(admin), code, StepAt(now), 1, step,
                        TotpStep(codes, SecretOf(admin), code, now));
      if step.None? {
        return Refused;
      }
      admin := admin.(enabled := false, secret := None);
      o := Accepted;
    }
  }

  // ---- no step twice ---------------------------------------------------------------------------

  /** The state after a history of events. */
  function Run(p: Policy, codes: Codes, a: Admin, events: seq<Event>): Admin {
    if events == [] then a else After(p, codes, Run(p, codes, a, events[..|events| - 1]), events[|events| - 1]).0
  }

  function LastOutcome(p: Policy, codes: Codes, a: Admin, events: seq<Event>): Outcome
    requires events != []
  {
    After(p, codes, Run(p, codes, a, events[..|events| - 1]), events[|events| - 1]).1
  }

  /** The steps accepted at sign-in, in order. */
  function AcceptedSteps(p: Policy, codes: Codes, a: Admin, events: seq<Event>): seq<int> {
    if events == [] then []
    else
      var before, o := AcceptedSteps(p, codes, a, events[..|events| - 1]), LastOutcome(p, codes, a, events);
      if o.SignedIn? && o.step.Some? then before + [o.step.value] else before
  }

  predicate Increasing(s: seq<int>) {
    forall i, j :: 0 <= i < j < |s| ==> s[i] < s[j]
  }

  /** No event of the history switches the second factor off. */
  ghost predicate StaysEnabled(p: Policy, codes: Codes, a: Admin, events: seq<Event>) {
    forall n :: 0 <= n <= |events| ==> Run(p, codes, a, events[..n]).enabled
  }

  /** While a secret stays enrolled, the steps accepted for it strictly increase from
      the one that confirmed it, and each is a step of that same secret. */
  lemma {:induction false} AcceptedStepsIncrease(p: Policy, codes: Codes, a: Admin, events: seq<Event>)
    requires StaysEnabled(p, codes, a, events)
    ensures var s, end := AcceptedSteps(p, codes, a, events), Run(p, codes, a, events);
            && Increasing([a.lastStep] + s)
            && end.lastStep == ([a.lastStep] + s)[|s|] && end.secret == a.secret
  {
    if events != [] {
      var init := events[..|events| - 1];
      forall n | 0 <= n <= |init| ensures Run(p, codes, a, init[..n]).enabled {
        assert init[..n] == events[..n];
      }
      AcceptedStepsIncrease(p, codes, a, init);
      assert events[..|init|] == init;
      var o, before := LastOutcome(p, codes, a, events), AcceptedSteps(p, codes, a, init);
      assert events[..|events|] == events;
      LastStepMoves(p, codes, Run(p, codes, a, init), events[|init|]);
      if o.SignedIn? && o.step.Some? {
        assert [a.lastStep] + (before + [o.step.value]) == ([a.lastStep] + before) + [o.step.value];
      }
    }
  }

  /** One event of an enabled account that leaves it enabled. */
  lemma LastStepMoves(p: Policy, codes: Codes, a: Admin, e: Event)
    requires a.enabled && After(p, codes, a, e).0.enabled
    ensures var (b, o) := After(p, codes, a, e);
            b.secret == a.secret
            && if o.SignedIn? then o.step.Some? && a.lastStep < o.step.value == b.lastStep else b.lastStep == a.lastStep
  {
  }

  /** A used code is refused as long as it is no code of a later step. */
  lemma UsedCodeIsRefused(p: Policy, codes: Codes, a: Admin, now: real, code: string)
    requires a.enabled && a.active
    requires forall s :: s > a.lastStep ==> !Matches(codes, SecretOf(a), code, s)
    ensures !AfterLogin(p, codes, a, now, true, code).1.SignedIn?
  {
    LatestIsLatest(codes, SecretOf(a), code, StepAt(now) - 1, StepAt(now) + 1);
  }

  /** Is the code one of the steps from low to high? */
  ghost predicate MatchesIn(codes: Codes, secret: string, code: string, low: int, high: int) {
    exists k :: low <= k <= high && Matches(codes, secret, code, k)
  }

  /** The first step the code could be taken for after step `used`. */
  function FirstAfter(used: int, t: real): int {
    if used + 1 > StepAt(t) - 1 then used + 1 else StepAt(t) - 1
  }

  /** When an enabled account lets a code sign in: only steps after the last accepted
      one count. */
  lemma SignInAcceptsIff(p: Policy, codes: Codes, a: Admin, t: real, ok: bool, code: string)
    requires a.enabled
    ensures AfterLogin(p, codes, a, t, ok, code).1.SignedIn?
       <==> a.active && !(a.lockedUntil.Some? && a.lockedUntil.value > t) && ok
            && MatchesIn(codes, SecretOf(a), code, FirstAfter(a.lastStep, t), StepAt(t) + 1)
  {
    LatestIsLatest(codes, SecretOf(a), code, StepAt(t) - 1, StepAt(t) + 1);
  }

  /** When it lets a code switch the second factor off: every step of the window counts. */
  lemma DisableAcceptsIff(p: Policy, codes: Codes, a: Admin, t: real, ok: bool, code: string)
    requires a.enabled
    ensures After(p, codes, a, Disable(t, ok, code)).1 == Accepted
       <==> ok && MatchesIn(codes, SecretOf(a), code, StepAt(t) - 1, StepAt(t) + 1)
  {
    LatestIsLatest(codes, SecretOf(a), code, StepAt(t) - 1, StepAt(t) + 1);
  }

  /** Exactly when a code that has signed the admin in is accepted again, after any
      history in which the secret stays enrolled. Signing in asks for a step after the
      one it was used for; switching the second factor off asks only for the password
      and a step of the window, the used one included; confirming never accepts it. */
  lemma UsedCodeAcceptedIff(p: Policy, codes: Codes, a: Admin, now: real, code: string,
                            events: seq<Event>, t: real, ok: bool)
    requires a.enabled && AfterLogin(p, codes, a, now, true, code).1.SignedIn?
    requires StaysEnabled(p, codes, AfterLogin(p, codes, a, now, true, code).0, events)
    ensures var (b, o) := AfterLogin(p, codes, a, now, true, code);
            var c := Run(p, codes, b, events);
            && o.step.Some? && Matches(codes, SecretOf(a), code, o.step.value) && o.step.value <= c.lastStep
            && (AfterLogin(p, codes, c, t, ok, code).1.SignedIn?
                <==> c.active && !(c.lockedUntil.Some? && c.lockedUntil.value > t) && ok
                     && MatchesIn(codes, SecretOf(a), code, FirstAfter(c.lastStep, t), StepAt(t) + 1))
            && (After(p, codes, c, Disable(t, ok, code)).1 == Accepted
                <==> ok && MatchesIn(codes, SecretOf(a), code, StepAt(t) - 1, StepAt(t) + 1))
            && After(p, codes, c, Confirm(t, code)).1 == Refused
  {
    var b := AfterLogin(p, codes, a, now, true, code).0;
    var c := Run(p, codes, b, events);
    LatestIsLatest(codes, SecretOf(a), code, StepAt(now) - 1, StepAt(now) + 1);
    AcceptedStepsIncrease(p, codes, b, events);
    var steps := [b.lastStep] + AcceptedSteps(p, codes, b, events);
    assert steps[0] <= steps[|steps| - 1];
    assert events[..|events|] == events;
    SignInAcceptsIff(p, codes, c, t, ok, code);
    DisableAcceptsIff(p, codes, c, t, ok, code);
  }

  /** Only one step has the code. */
  ghost predicate OnlyStep(codes: Codes, secret: string, code: string, step: int) {
    forall k :: Matches(codes, secret, code, k) <==> k == step
  }

  /** A code of one step only works once at sign-in, but with the password it keeps
      switching the second factor off from one step before its own to one after. */
  lemma OneStepCodeReusableIff(p: Policy, codes: Codes, a: Admin, now: real, code: string,
                               events: seq<Event>, t: real, ok: bool, step: int)
    requires a.enabled && AfterLogin(p, codes, a, now, true, code).1.SignedIn?
    requires StaysEnabled(p, codes, AfterLogin(p, codes, a, now, true, code).0, events)
    requires OnlyStep(codes, SecretOf(a), code, step)
    ensures var c := Run(p, codes, AfterLogin(p, codes, a, now, true, code).0, events);
            && !AfterLogin(p, codes, c, t, ok, code).1.SignedIn?
            && (After(p, codes, c, Disable(t, ok, code)).1 == Accepted
                <==> ok && step - 1 <= StepAt(t) <= step + 1)
  {
    UsedCodeAcceptedIff(p, codes, a, now, code, events, t, ok);
    if step - 1 <= StepAt(t) <= step + 1 {
      assert Matches(codes, SecretOf(a), code, step);
    }
  }

  lemma {:induction false} DigitsHaveNoSpaces(s: string)
    requires forall c :: c in s ==> '0' <= c <= '9'
    ensures WithoutSpaces(s) == s
  {
    if s != "" {
      assert s[0] in s && forall c :: c in s[1..] ==> c in s;
      DigitsHaveNoSpaces(s[1..]);
    }
  }

  /** The codes of the example: one step has its own, all others share another. */
  function TwoCodes(): Codes {
    (secret, k) => if k == 10 then "123456" else "654321"
  }

  /** An account for which it happens: the code of step 10 signs in at 300 s, is
      refused a second sign-in at 330 s, and then switches the second factor off. */
  lemma UsedCodeStillDisables(p: Policy)
    ensures var a := Admin(true, 0, None, true, Some("secret"), 0);
            var (b, o) := AfterLogin(p, TwoCodes(), a, 300.0, true, "123456");
            && o == SignedIn(Some(10))
            && !AfterLogin(p, TwoCodes(), b, 330.0, true, "123456").1.SignedIn?
            && After(p, TwoCodes(), b, Disable(330.0, true, "123456")).1 == Accepted
  {
    var a := Admin(true, 0, None, true, Some("secret"), 0);
    DigitsHaveNoSpaces("123456");
    assert Clean("123456") == "123456" && IsCode("123456");
    assert StepAt(300.0) == 10 && StepAt(330.0) == 11;
    assert OnlyStep(TwoCodes(), "secret", "123456", 10) by {
      assert "123456"[0] != "654321"[0];
    }
    SignInAcceptsIff(p, TwoCodes(), a, 300.0, true, "123456");
    assert Matches(TwoCodes(), "secret", "123456", 10);
    OneStepCodeReusableIff(p, TwoCodes(), a, 300.0, "123456", [], 330.0, true, 10);
    LatestIsLatest(TwoCodes(), "secret", "123456", 9, 11);
  }

  // ---- the ladder ------------------------------------------------------------------------------

  function Failures(p: Policy, codes: Codes, a: Admin, events: seq<Event>): nat {
    if events == [] then 0
    else
      Failures(p, codes, a, events[..|events| - 1])
      + if LastOutcome(p, codes, a, events).CountedFailure? then 1 else 0
  }

  /** Sign-in attempts fall into the span, in time order, and nothing clears the
      ladder: no success and no unlock. */
  ghost predicate FailingSpan(p: Policy, codes: Codes, a: Admin, events: seq<Event>, start: real, end: real) {
    && (forall i :: 0 <= i < |events| && events[i].Login? ==> start <= events[i].now <= end)
    && (forall i, j :: 0 <= i <= j < |events| && events[i].Login? && events[j].Login?
         ==> events[i].now <= events[j].now)
    && (forall i :: 0 <= i < |events| ==> !events[i].Unlock?)
    && (forall n :: 0 < n <= |events| ==> !LastOutcome(p, codes, a, events[..n]).SignedIn?)
  }

  function Lockouts(p: Policy, length: real): int
    requires p.lockout > 0.0
  {
    (length / p.lockout).Floor
  }

  function Max1(n: int): nat {
    if n < 1 then 1 else n
  }

  lemma LockoutsGrow(p: Policy, s: real, t: real)
    requires p.lockout > 0.0
    ensures s <= t ==> Lockouts(p, s) <= Lockouts(p, t)
    ensures s + p.lockout <= t ==> Lockouts(p, s) + 1 <= Lockouts(p, t)
    ensures 0.0 <= s ==> 0 <= Lockouts(p, s)
  {
    var l := p.lockout;
    QuotientOrder(s, t, l);
    QuotientOrder(s + l, t, l);
    QuotientOrder(0.0, s, l);
    var q := s / l;
    assert q * l == s;
    assert (q + 1.0) * l == s + l;
    QuotientIs(s + l, q + 1.0, l);
  }

  lemma QuotientIs(z: real, x: real, l: real)
    requires l > 0.0
    ensures z == x * l ==> z / l == x
  {
  }

  lemma QuotientOrder(s: real, t: real, l: real)
    requires l > 0.0
    ensures s <= t ==> s / l <= t / l
  {
  }

  /** When a locked account was locked. */
  function LockedAt(p: Policy, b: Admin): real
    requires b.lockedUntil.Some?
  {
    b.lockedUntil.value - p.lockout
  }

  /** Where the ladder stands after some failures of a span: below the limit, or
      locked since a failure within it. */
  ghost predicate Climbed(p: Policy, b: Admin, n: nat, start: real, last: real)
    requires p.lockout > 0.0
  {
    && b.failed >= n
    && (n == 0
        || (b.failed < p.maxAttempts && n <= b.failed)
        || (b.failed >= p.maxAttempts && b.lockedUntil.Some? && start <= LockedAt(p, b) <= last
            && n <= Max1(p.maxAttempts) + Lockouts(p, LockedAt(p, b) - start)))
  }

  lemma ClimbOne(p: Policy, b: Admin, n: nat, start: real, last: real, now: real)
    requires p.lockout > 0.0 && Climbed(p, b, n, start, last) && start <= last <= now
    requires b.lockedUntil.None? || b.lockedUntil.value <= now
    ensures Climbed(p, Failed(p, b, now), n + 1, start, now)
  {
    LockoutsGrow(p, now - start, now - start);
    if b.failed + 1 >= p.maxAttempts {
      if n > 0 && b.failed >= p.maxAttempts {
        LockoutsGrow(p, LockedAt(p, b) - start, now - start);
      }
      assert n + 1 <= Max1(p.maxAttempts) + Lockouts(p, now - start);
    }
  }

  /** The time of the last sign-in attempt, or the start. */
  function LastLogin(events: seq<Event>, start: real): real {
    if events == [] then start
    else if events[|events| - 1].Login? then events[|events| - 1].now
    else LastLogin(events[..|events| - 1], start)
  }

  lemma {:induction false} LastLoginInSpan(p: Policy, codes: Codes, a: Admin, events: seq<Event>, start: real,
                                           end: real)
    requires FailingSpan(p, codes, a, events, start, end) && start <= end
    ensures start <= LastLogin(events, start) <= end
    ensures forall i :: 0 <= i < |events| && events[i].Login? ==> events[i].now <= LastLogin(events, start)
  {
    if events != [] && !events[|events| - 1].Login? {
      SpanPrefix(p, codes, a, events, start, end);
      LastLoginInSpan(p, codes, a, events[..|events| - 1], start, end);
    }
  }

  lemma SpanPrefix(p: Policy, codes: Codes, a: Admin, events: seq<Event>, start: real, end: real)
    requires FailingSpan(p, codes, a, events, start, end) && events != []
    ensures FailingSpan(p, codes, a, events[..|events| - 1], start, end)
  {
    var init := events[..|events| - 1];
    forall n | 0 < n <= |init| ensures !LastOutcome(p, codes, a, init[..n]).SignedIn? {
      assert init[..n] == events[..n];
    }
  }

  /** One event of the span. */
  lemma EventClimbs(p: Policy, codes: Codes, b: Admin, e: Event, n: nat, start: real, last: real, last': real)
    requires p.lockout > 0.0 && Climbed(p, b, n, start, last) && start <= last <= last' && !e.Unlock?
    requires e.Login? ==> e.now == last'
    requires !After(p, codes, b, e).1.SignedIn?
    ensures var (b', o) := After(p, codes, b, e);
            Climbed(p, b', n + if o.CountedFailure? then 1 else 0, start, last')
  {
    if After(p, codes, b, e).1.CountedFailure? {
      ClimbOne(p, b, n, start, last, last');
    }
  }

  lemma {:induction false} SpanClimbs(p: Policy, codes: Codes, a: Admin, events: seq<Event>, start: real, end: real)
    requires p.lockout > 0.0 && a.failed >= 0 && start <= end && FailingSpan(p, codes, a, events, start, end)
    ensures Climbed(p, Run(p, codes, a, events), Failures(p, codes, a, events), start, LastLogin(events, start))
  {
    if events != [] {
      var init, e := events[..|events| - 1], events[|events| - 1];
      SpanPrefix(p, codes, a, events, start, end);
      SpanClimbs(p, codes, a, init, start, end);
      LastLoginGrows(p, codes, a, events, start, end);
      assert events[..|events|] == events;
      EventClimbs(p, codes, Run(p, codes, a, init), e, Failures(p, codes, a, init),
                  start, LastLogin(init, start), LastLogin(events, start));
    }
  }

  lemma LastLoginGrows(p: Policy, codes: Codes, a: Admin, events: seq<Event>, start: real, end: real)
    requires start <= end && events != [] && FailingSpan(p, codes, a, events, start, end)
    ensures start <= LastLogin(events[..|events| - 1], start) <= LastLogin(events, start)
  {
    var init, e := events[..|events| - 1], events[|events| - 1];
    SpanPrefix(p, codes, a, events, start, end);
    LastLoginInSpan(p, codes, a, init, start, end);
    if e.Login? {
      assert forall i :: 0 <= i < |init| && init[i].Login? ==> init[i].now <= e.now;
      LastLoginIsOne(init, start, e.now);
    }
  }

  lemma {:induction false} LastLoginIsOne(events: seq<Event>, start: real, now: real)
    requires start <= now && forall i :: 0 <= i < |events| && events[i].Login? ==> events[i].now <= now
    ensures LastLogin(events, start) <= now
  {
    if events != [] && !events[|events| - 1].Login? {
      LastLoginIsOne(events[..|events| - 1], start, now);
    }
  }

  /** Any span with no success and no unlock counts at most as many failures as the
      ladder allows at once, and one more for each lockout that fits into it. */
  lemma LadderBound(p: Policy, codes: Codes, a: Admin, events: seq<Event>, start: real, end: real)
    requires p.lockout > 0.0 && a.failed >= 0 && start <= end && FailingSpan(p, codes, a, events, start, end)
    ensures Failures(p, codes, a, events) <= Max1(p.maxAttempts) + Lockouts(p, end - start)
  {
    SpanClimbs(p, codes, a, events, start, end);
    LastLoginInSpan(p, codes, a, events, start, end);
    var b, n := Run(p, codes, a, events), Failures(p, codes, a, events);
    LockoutsGrow(p, end - start, end - start);
    if n > 0 && b.failed >= p.maxAttempts {
      LockoutsGrow(p, LockedAt(p, b) - start, end - start);
    }
  }

  /** An account is locked exactly when its attempts are used up. */
  ghost predicate LockedIffUsedUp(p: Policy, a: Admin) {
    a.lockedUntil.Some? <==> a.failed >= p.maxAttempts
  }

  /** Over any run of sign-ins, unlocks and second-factor changes the lock and the
      counter agree: a success or an unlock clears both, and the failure that uses
      up the attempts, and no earlier one, locks. */
  lemma {:induction false} LockMatchesCounter(p: Policy, codes: Codes, a: Admin, events: seq<Event>)
    requires p.maxAttempts >= 1 && LockedIffUsedUp(p, a)
    ensures LockedIffUsedUp(p, Run(p, codes, a, events))
  {
    if events != [] {
      LockMatchesCounter(p, codes, a, events[..|events| - 1]);
    }
  }

  /** A lockout of no length locks nobody out, however many attempts fail. */
  lemma NoLockoutNoBound(p: Policy, codes: Codes, a: Admin, now: real, passwordOk: bool, code: string)
    requires p.lockout <= 0.0 && a.active
    ensures AfterLogin(p, codes, Failed(p, a, now), now, passwordOk, code).1 != Locked
  {
  }

  /** No failing span of at most this length counts more than n failures. */
  ghost predicate BoundedIn(p: Policy, codes: Codes, a: Admin, length: real, n: nat) {
    forall events, start, end ::
      start <= end <= start + length && FailingSpan(p, codes, a, events, start, end) ==>
        Failures(p, codes, a, events) <= n
  }

  function Attempts(now: real, n: nat): seq<Event> {
    if n == 0 then [] else Attempts(now, n - 1) + [Login(now, false, "")]
  }

  /** Nothing keeps the next attempt of an account from being counted at this time. */
  predicate Open(b: Admin, now: real) {
    b.active && (b.lockedUntil.Some? ==> b.lockedUntil.value <= now)
  }

  lemma OneMoreCounted(p: Policy, codes: Codes, b: Admin, now: real)
    requires p.lockout <= 0.0 && Open(b, now)
    ensures After(p, codes, b, Login(now, false, "")) == (Failed(p, b, now), CountedFailure)
    ensures Open(Failed(p, b, now), now)
  {
  }

  lemma RunAppends(p: Policy, codes: Codes, a: Admin, events: seq<Event>, e: Event)
    ensures LastOutcome(p, codes, a, events + [e]) == After(p, codes, Run(p, codes, a, events), e).1
    ensures Run(p, codes, a, events + [e]) == After(p, codes, Run(p, codes, a, events), e).0
    ensures Failures(p, codes, a, events + [e])
         == Failures(p, codes, a, events) + if LastOutcome(p, codes, a, events + [e]).CountedFailure? then 1 else 0
  {
    assert (events + [e])[..|events|] == events;
  }

  lemma SpanAppends(p: Policy, codes: Codes, a: Admin, events: seq<Event>, e: Event, now: real)
    requires FailingSpan(p, codes, a, events, now, now) && e.Login? && e.now == now
    requires !LastOutcome(p, codes, a, events + [e]).SignedIn?
    ensures FailingSpan(p, codes, a, events + [e], now, now)
  {
    var all := events + [e];
    forall n | 0 < n <= |all| ensures !LastOutcome(p, codes, a, all[..n]).SignedIn? {
      if n <= |events| {
        assert all[..n] == events[..n];
      } else {
        assert all[..n] == all;
      }
    }
  }

  /** With a lockout of no length every attempt is counted, even at one instant. */
  lemma {:induction false} AllCounted(p: Policy, codes: Codes, a: Admin, now: real, n: nat)
    requires p.lockout <= 0.0 && Open(a, now)
    ensures FailingSpan(p, codes, a, Attempts(now, n), now, now)
    ensures Failures(p, codes, a, Attempts(now, n)) == n && Open(Run(p, codes, a, Attempts(now, n)), now)
  {
    if n > 0 {
      var init, e := Attempts(now, n - 1), Login(now, false, "");
      AllCounted(p, codes, a, now, n - 1);
      RunAppends(p, codes, a, init, e);
      OneMoreCounted(p, codes, Run(p, codes, a, init), now);
      SpanAppends(p, codes, a, init, e, now);
    }
  }

  /** The failures an account can collect in a span of a given length are bounded
      exactly when lockouts take time. */
  lemma FailuresBoundedIff(p: Policy, codes: Codes, a: Admin, length: real)
    requires a.active && a.failed >= 0 && length >= 0.0
    ensures (exists n: nat :: BoundedIn(p, codes, a, length, n)) <==> p.lockout > 0.0
  {
    if p.lockout > 0.0 {
      LockoutsGrow(p, length, length);
      var n: nat := Max1(p.maxAttempts) + Lockouts(p, length);
      forall events, start, end | start <= end <= start + length && FailingSpan(p, codes, a, events, start, end)
        ensures Failures(p, codes, a, events) <= n
      {
        LadderBound(p, codes, a, events, start, end);
        LockoutsGrow(p, end - start, length);
      }
      assert BoundedIn(p, codes, a, length, n);
    } else {
      var now := if a.lockedUntil.Some? then a.lockedUntil.value else 0.0;
      forall n: nat ensures !BoundedIn(p, codes, a, length, n) {
        AllCounted(p, codes, a, now, n + 1);
      }
    }
  }
}
