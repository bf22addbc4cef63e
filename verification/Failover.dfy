/** Retry of one endpoint (packages/acip_gateway/retry.py) and failover along a
    chain of them (packages/acip_gateway/failover.py). */
module Failover {
  import opened Wrappers

  datatype Error = Status(code: int) | Timeout | Connect | Network | Other

  /** How one call to an endpoint ends. */
  datatype Call = Reply(text: string) | Raised(error: Error)

  datatype Endpoint = Endpoint(provider: string, model: string, isLocal: bool, maxRetries: int, backoffMs: nat)

  predicate Retryable(e: Error) {
    match e
    case Status(code) => code == 408 || code == 429 || code == 500 || code == 502 || code == 503 || code == 504
    case Timeout => true
    case Connect => true
    case Network => true
    case Other => false
  }

  function Allowed(maxRetries: int): nat {
    if maxRetries < 0 then 0 else maxRetries
  }

  /** The call that settles an endpoint, counted from i: the first one that
      replies, fails for good, or uses up the retries. */
  function Settles(calls: nat -> Call, maxRetries: int, i: nat): (k: nat)
    ensures i <= k && k <= (if i < maxRetries then maxRetries else i)
    ensures forall j :: i <= j < k ==> calls(j).Raised? && Retryable(calls(j).error)
    ensures k >= maxRetries || calls(k).Reply? || !Retryable(calls(k).error)
    decreases maxRetries - i
  {
    if i >= maxRetries || calls(i).Reply? || !Retryable(calls(i).error) then i
    else Settles(calls, maxRetries, i + 1)
  }

  function Doubled(backoffMs: nat, times: nat): nat {
    if times == 0 then backoffMs else 2 * Doubled(backoffMs, times - 1)
  }

  /** The wait before retry i (from 1): the first is the configured backoff itself,
      however long; later ones double and are capped at five seconds. */
  function Delay(backoffMs: nat, i: nat): real
    requires i >= 1
  {
    var d := Doubled(backoffMs, i - 1) as real / 1000.0;
    if i == 1 || d <= 5.0 then d else 5.0
  }

  lemma DelayDoubles(backoffMs: nat, i: nat)
    requires i >= 1
    ensures Delay(backoffMs, i + 1) == if Delay(backoffMs, i) * 2.0 <= 5.0 then Delay(backoffMs, i) * 2.0 else 5.0
  {
  }

  function Waited(delays: seq<real>): real {
    if delays == [] then 0.0 else Waited(delays[..|delays| - 1]) + delays[|delays| - 1]
  }

  predicate Backoffs(delays: seq<real>, backoffMs: nat) {
    forall i :: 0 <= i < |delays| ==> delays[i] == Delay(backoffMs, i + 1)
  }

  /** However many retries, waiting costs at most the first backoff and five
      seconds for each later one. */
  lemma {:induction false} WaitIsBounded(delays: seq<real>, backoffMs: nat)
    requires Backoffs(delays, backoffMs)
    ensures Waited(delays) <= if |delays| == 0 then 0.0 else backoffMs as real / 1000.0 + 5.0 * (|delays| - 1) as real
  {
    if |delays| > 0 {
      var init := delays[..|delays| - 1];
      WaitIsBounded(init, backoffMs);
      if |delays| == 1 {
        assert init == [];
      } else {
        assert delays[|delays| - 1] <= 5.0;
      }
    }
  }

  /** `call_with_retry`: the loop calls until the endpoint settles, sleeping between. */
  method CallWithRetry(calls: nat -> Call, maxRetries: int, backoffMs: nat)
    returns (result: Call, attempts: nat, delays: seq<real>)
    ensures attempts == Settles(calls, maxRetries, 0) + 1 <= Allowed(maxRetries) + 1
    ensures result == calls(attempts - 1)
    ensures |delays| == attempts - 1 && Backoffs(delays, backoffMs)
  {
    var delay := backoffMs as real / 1000.0;
    var attempt: nat := 0;
    delays := [];
    while true
      invariant Settles(calls, maxRetries, attempt) == Settles(calls, maxRetries, 0)
      invariant attempt <= Allowed(maxRetries) && |delays| == attempt && Backoffs(delays, backoffMs)
      invariant delay == Delay(backoffMs, attempt + 1)
      decreases Allowed(maxRetries) - attempt
    {
      result := calls(attempt);
      if result.Reply? || attempt >= maxRetries || !Retryable(result.error) {
        return result, attempt + 1, delays;
      }
      attempt := attempt + 1;
      delays := delays + [delay];
      DelayDoubles(backoffMs, attempt);
      delay := if delay * 2.0 < 5.0 then delay * 2.0 else 5.0;
    }
  }

  /** An endpoint succeeds exactly when some call within its retries replies after
      nothing but transient failures. */
  lemma SucceedsIff(calls: nat -> Call, maxRetries: int)
    ensures calls(Settles(calls, maxRetries, 0)).Reply?
       <==> exists i: nat :: i <= Allowed(maxRetries) && calls(i).Reply?
                        && forall j: nat :: j < i ==> calls(j).Raised? && Retryable(calls(j).error)
  {
  }

  // ---- a chain of endpoints ------------------------------------------------------------------

  /** The calls of one pass over a chain: what endpoint e's i-th call would give. */
  type Behaviour = (nat, nat) -> Call

  function CallsOf(b: Behaviour, e: nat): nat -> Call {
    (i: nat) => b(e, i)
  }

  function AttemptsOf(chain: seq<Endpoint>, b: Behaviour, e: nat): nat
    requires e < |chain|
  {
    Settles(CallsOf(b, e), chain[e].maxRetries, 0) + 1
  }

  function ResultOf(chain: seq<Endpoint>, b: Behaviour, e: nat): Call
    requires e < |chain|
  {
    b(e, AttemptsOf(chain, b, e) - 1)
  }

  /** All attempts made on the first n endpoints. */
  function AttemptsUpTo(chain: seq<Endpoint>, b: Behaviour, n: nat): nat
    requires n <= |chain|
  {
    if n == 0 then 0 else AttemptsUpTo(chain, b, n - 1) + AttemptsOf(chain, b, n - 1)
  }

  function RetryBudget(chain: seq<Endpoint>): nat {
    if chain == [] then 0 else RetryBudget(chain[..|chain| - 1]) + Allowed(chain[|chain| - 1].maxRetries) + 1
  }

  lemma {:induction false} AttemptsWithinBudget(chain: seq<Endpoint>, b: Behaviour, n: nat)
    requires n <= |chain|
    ensures AttemptsUpTo(chain, b, n) <= RetryBudget(chain[..n])
  {
    if n > 0 {
      AttemptsWithinBudget(chain, b, n - 1);
      assert chain[..n][..n - 1] == chain[..n - 1];
    }
  }

  lemma {:induction false} BudgetGrows(chain: seq<Endpoint>, n: nat)
    requires n <= |chain|
    ensures RetryBudget(chain[..n]) <= RetryBudget(chain)
    decreases |chain|
  {
    if n < |chain| {
      BudgetGrows(chain[..|chain| - 1], n);
      assert chain[..|chain| - 1][..n] == chain[..n];
    } else {
      assert chain[..n] == chain;
    }
  }

  lemma WithinBudget(chain: seq<Endpoint>, b: Behaviour, n: nat)
    requires n <= |chain|
    ensures AttemptsUpTo(chain, b, n) <= RetryBudget(chain)
  {
    AttemptsWithinBudget(chain, b, n);
    BudgetGrows(chain, n);
  }

  predicate Locals(chain: seq<Endpoint>) {
    forall e :: e in chain ==> e.isLocal
  }

  function OnlyLocal(chain: seq<Endpoint>): (r: seq<Endpoint>)
    ensures Locals(r)
    ensures forall e :: e in r <==> e in chain && e.isLocal
  {
    if chain == [] then []
    else OnlyLocal(chain[..|chain| - 1]) + if chain[|chain| - 1].isLocal then [chain[|chain| - 1]] else []
  }

  function Eligible(chain: seq<Endpoint>, preferLocal: bool): seq<Endpoint> {
    if preferLocal then OnlyLocal(chain) else chain
  }

  datatype Outcome = Answered(server: Endpoint, text: string) | AllFailed

  /** What trying the endpoints from number e on gives. */
  function ServeFrom(tried: seq<Endpoint>, b: Behaviour, e: nat): Outcome
    decreases |tried| - e
  {
    if e >= |tried| then AllFailed
    else
      var result := ResultOf(tried, b, e);
      if result.Reply? then Answered(tried[e], result.text) else ServeFrom(tried, b, e + 1)
  }

  /** How many endpoints have been contacted by then. */
  function Contacts(tried: seq<Endpoint>, b: Behaviour, e: nat): nat
    decreases |tried| - e
  {
    if e >= |tried| then |tried| else if ResultOf(tried, b, e).Reply? then e + 1 else Contacts(tried, b, e + 1)
  }

  /** The first endpoint that succeeds answers, after contacting exactly those
      before it; none succeeds exactly when all failed. */
  ghost predicate Served(tried: seq<Endpoint>, b: Behaviour, outcome: Outcome, contacted: nat) {
    && contacted <= |tried|
    && (forall e :: 0 <= e < contacted - 1 ==> ResultOf(tried, b, e).Raised?)
    && match outcome
       case AllFailed => contacted == |tried| && (contacted > 0 ==> ResultOf(tried, b, contacted - 1).Raised?)
       case Answered(server, text) =>
         contacted > 0 && server == tried[contacted - 1] && ResultOf(tried, b, contacted - 1) == Reply(text)
  }

  lemma FailsIffAllFail(tried: seq<Endpoint>, b: Behaviour, outcome: Outcome, contacted: nat)
    requires Served(tried, b, outcome, contacted)
    ensures outcome.AllFailed? <==> forall e :: 0 <= e < |tried| ==> ResultOf(tried, b, e).Raised?
  {
  }

  lemma {:induction false} ServeServes(tried: seq<Endpoint>, b: Behaviour, e: nat)
    requires e <= |tried| && forall j :: 0 <= j < e ==> ResultOf(tried, b, j).Raised?
    ensures Served(tried, b, ServeFrom(tried, b, e), Contacts(tried, b, e))
    decreases |tried| - e
  {
    if e < |tried| && ResultOf(tried, b, e).Raised? {
      ServeServes(tried, b, e + 1);
    }
  }

  /** The loop of `generate`. */
  method TryEach(tried: seq<Endpoint>, b: Behaviour) returns (outcome: Outcome, contacted: nat, attempts: nat)
    ensures outcome == ServeFrom(tried, b, 0) && contacted == Contacts(tried, b, 0) <= |tried|
    ensures attempts == AttemptsUpTo(tried, b, contacted)
  {
    contacted, attempts := 0, 0;
    while contacted < |tried|
      invariant contacted <= |tried| && attempts == AttemptsUpTo(tried, b, contacted)
      invariant ServeFrom(tried, b, contacted) == ServeFrom(tried, b, 0)
      invariant Contacts(tried, b, contacted) == Contacts(tried, b, 0)
    {
      var ep := tried[contacted];
      var result, made, delays := CallWithRetry(CallsOf(b, contacted), ep.maxRetries, ep.backoffMs);
      assert made == AttemptsOf(tried, b, contacted) && result == ResultOf(tried, b, contacted);
      contacted, attempts := contacted + 1, attempts + made;
      if result.Reply? {
        return Answered(ep, result.text), contacted, attempts;
      }
    }
    outcome := AllFailed;
  }

  /** `generate` over the eligible endpoints. */
  method TryChain(chain: seq<Endpoint>, preferLocal: bool, b: Behaviour)
    returns (outcome: Outcome, contacted: nat, attempts: nat)
    ensures var tried := Eligible(chain, preferLocal);
            && outcome == ServeFrom(tried, b, 0) && Served(tried, b, outcome, contacted)
            && attempts == AttemptsUpTo(tried, b, contacted) <= RetryBudget(tried)
  {
    outcome, contacted, attempts := TryEach(Eligible(chain, preferLocal), b);
    ServeServes(Eligible(chain, preferLocal), b, 0);
    WithinBudget(Eligible(chain, preferLocal), b, contacted);
  }

  predicate EndsLocal(chain: seq<Endpoint>) {
    chain != [] && chain[|chain| - 1].isLocal
  }

  /** What preferring local leaves of a chain that ends local still does. */
  lemma LocalSuffices(chain: seq<Endpoint>, preferLocal: bool)
    requires EndsLocal(chain)
    ensures EndsLocal(Eligible(chain, preferLocal))
    ensures Eligible(chain, preferLocal)[|Eligible(chain, preferLocal)| - 1] == chain[|chain| - 1]
  {
  }

  /** `ProviderChain`: refuses an empty chain and one that does not end local. */
  class ProviderChain {
    const endpoints: seq<Endpoint>

    ghost predicate Valid() {
      EndsLocal(endpoints)
    }

    constructor (endpoints: seq<Endpoint>)
      requires EndsLocal(endpoints)
      ensures Valid() && this.endpoints == endpoints
    {
      this.endpoints := endpoints;
    }

    static method Make(endpoints: seq<Endpoint>) returns (chain: ProviderChain?)
      ensures chain == null <==> !EndsLocal(endpoints)
      ensures chain != null ==> fresh(chain) && chain.Valid() && chain.endpoints == endpoints
    {
      if endpoints == [] || !endpoints[|endpoints| - 1].isLocal {
        return null;
      }
      chain := new ProviderChain(endpoints);
    }

    /** While the local terminal succeeds, generating never fails, whatever the
        other endpoints do; preferring local contacts local endpoints only. */
    method Generate(preferLocal: bool, b: Behaviour) returns (outcome: Outcome, contacted: nat)
      requires Valid()
      ensures var tried := Eligible(endpoints, preferLocal);
              && Served(tried, b, outcome, contacted)
              && (preferLocal ==> Locals(tried[..contacted]))
              && (outcome.AllFailed? ==> ResultOf(tried, b, |tried| - 1).Raised?)
    {
      LocalSuffices(endpoints, preferLocal);
      var attempts;
      outcome, contacted, attempts := TryChain(endpoints, preferLocal, b);
    }
  }
}
