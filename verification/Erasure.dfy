/** What erasing a tenant does to the freshness of its cached answers
    (services/api/routers/admin_governance.py): the erase deletes the key of the data
    version, so versions start over while cached answers stay. */
module Erasure {
  import opened Wrappers
  import opened CacheKeys
  import opened Pricing
  import opened Gateway
  import opened Freshness
  import opened Router
  import opened Staleness

  // ---- when an erase is safe --------------------------------------------------------------------

  predicate SafeEntry(w: World, k: Key, e: Entry) {
    e.origin.FromIndex? ==> k.version == 0 && SawPublished(w, e.origin.at)
  }

  predicate SafeTurn(shop: Shop, w: World, turn: Turn) {
    MayKeep(shop, turn) ==> turn.version == 0 && (SearchedAt(turn).Some? ==> SawPublished(w, SearchedAt(turn).value))
  }

  /** Every cached search answer, and every one a turn in flight may still store, is
      kept under version 0 and saw all that is published. */
  predicate SafeToErase(shop: Shop, w: World) {
    && (forall k :: k in w.l1 ==> SafeEntry(w, k, w.l1[k]))
    && (forall t :: 0 <= t < |w.turns| ==> SafeTurn(shop, w, w.turns[t]))
  }

  // ---- a safe erase keeps the promise ----------------------------------------------------------------

  function Published(w: World): set<nat> {
    set i: nat | i < |w.published| && w.published[i] > 0
  }

  lemma SafeEraseCovered(shop: Shop, w: World, deletions: seq<Change>)
    requires |w.published| == |w.log| && SafeToErase(shop, w)
    ensures AllCovered(shop, Erased(w, deletions), 0, Published(w))
  {
    var e, settled := Erased(w, deletions), Published(w);
    forall k | k in e.l1 ensures EntryCovers(e, k.version, e.l1[k], settled) {
      assert SafeEntry(w, k, w.l1[k]);
    }
    forall t | 0 <= t < |e.turns| ensures TurnCovers(shop, e, e.turns[t], settled) {
      assert SafeTurn(shop, w, w.turns[t]);
    }
  }

  lemma SafeEraseNeverStale(shop: Shop, cap: real, w: World, deletions: seq<Change>)
    requires |w.published| == |w.log| && SafeToErase(shop, w)
    ensures NeverStale(shop, cap, Erased(w, deletions))
  {
    var e := Erased(w, deletions);
    SafeEraseCovered(shop, w, deletions);
    CoveredNeverStale(shop, cap, e, 0, Published(w));
  }

  // ---- an unsafe one breaks it -------------------------------------------------------------------------

  /** Publications of nothing, which only count the version up. */
  function Climb(n: nat): seq<Step> {
    if n == 0 then [] else [Publish({})] + Climb(n - 1)
  }

  function Raised(w: World, n: nat): World {
    w.(version := w.version + n)
  }

  lemma {:induction false} ClimbRuns(shop: Shop, cap: real, w: World, n: nat)
    requires |w.published| == |w.log|
    ensures Clear(shop, cap, w, Climb(n)) && Run(shop, cap, w, Climb(n), Raised(w, n))
    decreases n
  {
    if n > 0 {
      var next := Next(shop, cap, w, Publish({}));
      assert next.published == w.published;
      assert next == Raised(w, 1);
      ClimbRuns(shop, cap, next, n - 1);
      assert Climb(n)[1..] == Climb(n - 1);
    }
  }

  /** Announcing one more change and counting the version up to v. */
  lemma ClimbTo(shop: Shop, cap: real, e: World, c: Change, v: nat) returns (before: seq<Step>, w1: World)
    requires |e.published| == |e.log| && e.version == 0 && v >= 1
    ensures Clear(shop, cap, e, before) && Run(shop, cap, e, before, w1)
    ensures w1.version == v && w1.l1 == e.l1 && w1.turns == e.turns
    ensures |w1.published| == |e.log| + 1 && w1.published[|e.log|] > 0
  {
    AnnounceRuns(shop, cap, e, c);
    ClimbRuns(shop, cap, Announced(e, c), v - 1);
    w1 := Raised(Announced(e, c), v - 1);
    before := [Write(c), Publish({|e.log|})] + Climb(v - 1);
    ClearConcat(shop, cap, e, [Write(c), Publish({|e.log|})], Announced(e, c), Climb(v - 1), w1);
  }

  /** A search answer kept under a version from 1 on is given out again once the
      versions have climbed back to it, though a change has been published since; one
      kept under version 0 at once, if it missed a published change. */
  lemma UnsafeEntryGoesStale(shop: Shop, cap: real, e: World, k: Key) returns (before: seq<Step>, w1: World, i: nat)
    requires AllSourced(shop, e) && e.version == 0 && k in e.l1 && !SafeEntry(e, k, e.l1[k])
    ensures Stale(shop, cap, e, before, w1, e.l1[k].origin.asked, i)
  {
    assert Sourced(shop, e.log, k.text, e.l1[k]);
    if k.version == 0 {
      before, w1 := [], e;
      i := EntryGoesStale(shop, cap, e, k);
    } else {
      before, w1 := ClimbTo(shop, cap, e, Delete(""), k.version);
      i := |e.log|;
      assert k == Key(Normalize(e.l1[k].origin.asked), w1.version);
      ServedAtOnce(shop, cap, e, before, w1, e.l1[k].origin.asked, i);
    }
  }

  lemma UnsafeTurnGoesStale(shop: Shop, cap: real, e: World, t: nat)
    requires AllSourced(shop, e) && e.version == 0 && t < |e.turns| && !SafeTurn(shop, e, e.turns[t])
    ensures !NeverStale(shop, cap, e)
  {
    var steps, w := TurnFinishes(shop, cap, e, t);
    var k := KeyOf(e.turns[t]);
    var before, w1, i := UnsafeEntryGoesStale(shop, cap, w, k);
    PrependStale(shop, cap, e, steps, w, before, w1, w.l1[k].origin.asked, i);
  }

  lemma ErasedSafety(shop: Shop, w: World, deletions: seq<Change>)
    requires |w.published| == |w.log|
    ensures SafeToErase(shop, Erased(w, deletions)) <==> SafeToErase(shop, w)
  {
    var e := Erased(w, deletions);
    forall at: nat ensures SawPublished(e, at) <==> SawPublished(w, at) {
      ErasedSaw(w, deletions, at);
    }
  }

  lemma ErasedSaw(w: World, deletions: seq<Change>, at: nat)
    requires |w.published| == |w.log|
    ensures SawPublished(Erased(w, deletions), at) <==> SawPublished(w, at)
  {
    var e := Erased(w, deletions);
    assert forall i :: 0 <= i < |w.published| ==> e.published[i] == w.published[i];
  }

  /** After an erase in any reachable state, no continuation ever serves a turn a
      cached search answer that misses a change published before the turn began,
      exactly when every cached search answer, and every one a turn in flight may
      still store, is kept under version 0 and saw all that was published. */
  lemma EraseKeepsFreshIff(shop: Shop, cap: real, w0: World, steps: seq<Step>, w: World, deletions: seq<Change>)
    requires Init(w0) && Run(shop, cap, w0, steps, w)
    ensures Enabled(shop, w, Erase(deletions))
    ensures NeverStale(shop, cap, Next(shop, cap, w, Erase(deletions))) <==> SafeToErase(shop, w)
  {
    InitFresh(shop, w0);
    RunKeepsSourced(shop, cap, w0, steps, w);
    var e := Next(shop, cap, w, Erase(deletions));
    StepKeepsSourced(shop, cap, w, Erase(deletions));
    if SafeToErase(shop, w) {
      SafeEraseNeverStale(shop, cap, w, deletions);
    } else {
      ErasedSafety(shop, w, deletions);
      UnsafeGoesStale(shop, cap, e);
    }
  }

  lemma UnsafeGoesStale(shop: Shop, cap: real, e: World)
    requires AllSourced(shop, e) && e.version == 0 && !SafeToErase(shop, e)
    ensures !NeverStale(shop, cap, e)
  {
    if k :| k in e.l1 && !SafeEntry(e, k, e.l1[k]) {
      var before, w1, i := UnsafeEntryGoesStale(shop, cap, e, k);
    } else {
      var t :| 0 <= t < |e.turns| && !SafeTurn(shop, e, e.turns[t]);
      UnsafeTurnGoesStale(shop, cap, e, t);
    }
  }

  // ---- a failing input ------------------------------------------------------------------------------------

  /** Any shop without a rule for the question: it is answered from the index before the
      first publication, then a change is written and published. */
  lemma FailureIsReachable(setup: Setup, query: string, change: Change, deletions: seq<Change>)
    returns (w0: World, steps: seq<Step>, w: World)
    requires setup.shop.rules(query).None?
    ensures Init(w0) && Run(setup.shop, setup.cap, w0, steps, w)
    ensures !SafeToErase(setup.shop, w) && Enabled(setup.shop, w, Erase(deletions))
    ensures !NeverStale(setup.shop, setup.cap, Next(setup.shop, setup.cap, w, Erase(deletions)))
  {
    w0 := EMPTY_WORLD;
    var w1;
    steps, w1 := AnsweredFromIndex(setup, w0, query);
    w := Announced(w1, change);
    AnnounceRuns(setup.shop, setup.cap, w1, change);
    RunConcat(setup.shop, setup.cap, w0, steps, w1, [Write(change), Publish({|w1.log|})], w);
    steps := steps + [Write(change), Publish({|w1.log|})];
    assert w.published[0] == 1;
    assert !SawPublished(w, 0);
    assert !SafeEntry(w, Key(Normalize(query), 0), w.l1[Key(Normalize(query), 0)]);
    EraseKeepsFreshIff(setup.shop, setup.cap, w0, steps, w, deletions);
  }
}
