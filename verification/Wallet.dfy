/** The wallet-aware budget guard (packages/acip_billing/wallet.py): the ledger
    balance, read at most once per TTL, forces an empty wallet to the local rungs. */
module Wallet {
  import opened Wrappers
  import Gateway

  /** A Redis value and the time its key expires. */
  datatype Cached = Cached(balance: real, until: real)

  /** One budget read: when, whether Redis answers, and what the ledger sums to
      (None: PostgreSQL is down); or a grant dropping the cached balance. */
  datatype Event = Read(now: real, up: bool, balance: Option<real>) | Invalidate(redisUp: bool)

  predicate Alive(cached: Option<Cached>, now: real) {
    cached.Some? && now < cached.value.until
  }

  /** The balance a read uses; None is unknown. */
  function BalanceUsed(cached: Option<Cached>, now: real, up: bool, balance: Option<real>): Option<real> {
    if up && Alive(cached, now) then Some(cached.value.balance) else balance
  }

  function AfterEvent(ttl: real, cached: Option<Cached>, e: Event): Option<Cached> {
    match e
    case Invalidate(up) => if up then None else cached
    case Read(now, up, balance) =>
      if up && !Alive(cached, now) && balance.Some? then Some(Cached(balance.value, now + ttl)) else cached
  }

  class WalletBudgetGuard {
    const cap: real
    const ttl: real
    var spent: real
    var killed: bool
    var cached: Option<Cached>

    constructor (cap: real, ttl: real)
      ensures spent == 0.0 && !killed && cached == None && this.cap == cap && this.ttl == ttl
    {
      this.cap, this.ttl, spent, killed, cached := cap, ttl, 0.0, false, None;
    }

    /** `_wallet_balance`. */
    method WalletBalance(now: real, up: bool, balance: Option<real>) returns (b: Option<real>)
      modifies `cached
      ensures b == BalanceUsed(old(cached), now, up, balance)
      ensures cached == AfterEvent(ttl, old(cached), Read(now, up, balance))
    {
      if up && cached.Some? && now < cached.value.until {
        return Some(cached.value.balance);
      }
      if balance.None? {
        return None;
      }
      if up {
        cached := Some(Cached(balance.value, now + ttl));
      }
      b := balance;
    }

    /** `state`: the base guard's verdict, or else an empty wallet's. */
    method State(now: real, up: bool, balance: Option<real>) returns (localOnly: bool)
      modifies `cached
      ensures var b := BalanceUsed(old(cached), now, up, balance);
              localOnly <==> Gateway.LocalOnly(spent, cap, killed, up) || (b.Some? && b.value <= 0.0)
      ensures cached == if Gateway.LocalOnly(spent, cap, killed, up) then old(cached)
                        else AfterEvent(ttl, old(cached), Read(now, up, balance))
    {
      localOnly := Gateway.LocalOnly(spent, cap, killed, up);
      if !localOnly {
        var b := WalletBalance(now, up, balance);
        localOnly := b.Some? && b.value <= 0.0;
      }
    }

    /** `invalidate_wallet`. */
    method InvalidateWallet(up: bool)
      modifies `cached
      ensures cached == AfterEvent(ttl, old(cached), Invalidate(up))
    {
      if up {
        cached := None;
      }
    }
  }

  function AfterEvents(ttl: real, events: seq<Event>): Option<Cached> {
    if events == [] then None else AfterEvent(ttl, AfterEvents(ttl, events[..|events| - 1]), events[|events| - 1])
  }

  /** Reads happen in time order, and PostgreSQL, when up, reports the ledger's
      balance of that moment. */
  ghost predicate Truthful(events: seq<Event>, ledger: real -> real) {
    && (forall i, j :: 0 <= i <= j < |events| && events[i].Read? && events[j].Read? ==> events[i].now <= events[j].now)
    && (forall i :: 0 <= i < |events| && events[i].Read? && events[i].balance.Some? ==>
                      events[i].balance.value == ledger(events[i].now))
  }

  /** A cached balance was the ledger's when it was read, one TTL before it expires. */
  lemma {:induction false} CachedWasTrue(ttl: real, events: seq<Event>, ledger: real -> real) returns (i: nat)
    requires Truthful(events, ledger) && AfterEvents(ttl, events).Some?
    ensures i < |events| && events[i].Read?
    ensures AfterEvents(ttl, events) == Some(Cached(ledger(events[i].now), events[i].now + ttl))
  {
    var n := |events| - 1;
    var before := AfterEvents(ttl, events[..n]);
    if AfterEvents(ttl, events) == before {
      i := CachedWasTrue(ttl, events[..n], ledger);
    } else {
      i := n;
    }
  }

  /** Whatever outages and invalidations came before, a known balance is one the
      ledger had less than a TTL ago, at the latest now. */
  lemma BalanceIsRecent(ttl: real, events: seq<Event>, ledger: real -> real, now: real, up: bool, balance: Option<real>)
    returns (at: real)
    requires ttl > 0.0 && Truthful(events + [Read(now, up, balance)], ledger)
    requires BalanceUsed(AfterEvents(ttl, events), now, up, balance).Some?
    ensures now - ttl < at <= now && BalanceUsed(AfterEvents(ttl, events), now, up, balance) == Some(ledger(at))
  {
    var all := events + [Read(now, up, balance)];
    var cached := AfterEvents(ttl, events);
    assert all[|events|] == Read(now, up, balance);
    if up && Alive(cached, now) {
      assert forall i :: 0 <= i < |events| ==> all[i] == events[i];
      var i := CachedWasTrue(ttl, events, ledger);
      assert all[i].now <= all[|events|].now;
      at := events[i].now;
    } else {
      at := now;
    }
  }

  /** So a wallet that has been empty for a whole TTL admits no turn to the paid
      rungs while either store can tell. */
  lemma EmptyWalletStopsPaidTurns(ttl: real, events: seq<Event>, ledger: real -> real, now: real, up: bool,
                                  balance: Option<real>)
    requires ttl > 0.0 && Truthful(events + [Read(now, up, balance)], ledger)
    requires forall t: real :: now - ttl < t <= now ==> ledger(t) <= 0.0
    requires balance.Some?
    ensures BalanceUsed(AfterEvents(ttl, events), now, up, balance).Some?
    ensures BalanceUsed(AfterEvents(ttl, events), now, up, balance).value <= 0.0
  {
    var at := BalanceIsRecent(ttl, events, ledger, now, up, balance);
  }

  /** And a grant counts at once when it could drop the cached balance: the next
      read reports the ledger itself. */
  lemma GrantCountsAtOnce(ttl: real, events: seq<Event>, now: real, up: bool, balance: Option<real>)
    ensures BalanceUsed(AfterEvents(ttl, events + [Invalidate(true)]), now, up, balance) == balance
  {
  }
}
