/** When cached answers miss nothing published, seen from a turn that begins with Redis
    up: over every continuation of a state, and for every state that index refreshes,
    however late, have led to. */
module Staleness {
  import opened Wrappers
  import opened CacheKeys
  import opened Pricing
  import opened Gateway
  import opened Freshness
  import opened Router
  import F = Failover

  /** A run without erases in which every search sees everything published. */
  ghost predicate Clear(shop: Shop, cap: real, w: World, steps: seq<Step>)
    decreases |steps|
  {
    steps == []
    || (Enabled(shop, w, steps[0]) && !steps[0].Erase?
        && (steps[0].Act? && steps[0].move.Retrieve? ==> AllVisible(w))
        && Clear(shop, cap, Next(shop, cap, w, steps[0]), steps[1..]))
  }

  predicate AllVisible(w: World) {
    forall i :: 0 <= i < |w.published| && w.published[i] > 0 ==> i < |Searched(w)|
  }

  /** A continuation of e in which a turn, begun with Redis up in state w1, is about to
      get a cached search answer in state w2; change i was published before it began. */
  ghost predicate Served(shop: Shop, cap: real, e: World, before: seq<Step>, w1: World, query: string,
                         steps: seq<Step>, w2: World, i: nat)
  {
    && Clear(shop, cap, e, before) && Run(shop, cap, e, before, w1)
    && Clear(shop, cap, Begun(w1, query), steps) && Run(shop, cap, Begun(w1, query), steps, w2)
    && var t, key := |w1.turns|, Key(Normalize(query), w1.version);
       && t < |w2.turns| && w2.turns[t] == Asked(query, w1.version)
       && key in w2.l1 && w2.l1[key].origin.FromIndex?
       && i < |w1.published| && w1.published[i] > 0
  }

  /** No such answer misses such a change, in any continuation. */
  ghost predicate NeverStale(shop: Shop, cap: real, e: World) {
    forall before, w1, query, steps, w2, i: nat :: Served(shop, cap, e, before, w1, query, steps, w2, i) ==>
                                                i < w2.l1[Key(Normalize(query), w1.version)].origin.at
  }

  /** A continuation in which the answer misses the change. */
  ghost predicate Stale(shop: Shop, cap: real, e: World, before: seq<Step>, w1: World, query: string, i: nat) {
    && Served(shop, cap, e, before, w1, query, [], Begun(w1, query), i)
    && w1.l1[Key(Normalize(query), w1.version)].origin.at <= i
  }

  // ---- what answers in flight have seen -----------------------------------------------------------

  /** May the turn still store a search answer? */
  predicate MayKeep(shop: Shop, turn: Turn) {
    match turn
    case Asked(query, _) => shop.rules(query).None?
    case Missed(query, _) => shop.rules(query).None?
    case Admitted(_, _, _) => true
    case Retrieved(_, _, _, _, _, _) => true
    case Recording(_, _, _, _, _, entry) => entry.Some? && entry.value.origin.FromIndex?
    case Done => false
  }

  /** All published changes are among the first `at`. */
  predicate SawPublished(w: World, at: nat) {
    forall i :: 0 <= i < |w.published| && w.published[i] > 0 ==> i < at
  }

  /** How many changes a turn's search saw, if it has been done. */
  function SearchedAt(turn: Turn): Option<nat> {
    match turn
    case Retrieved(_, _, _, _, at, _) => Some(at)
    case Recording(_, _, _, _, _, entry) =>
      if entry.Some? && entry.value.origin.FromIndex? then Some(entry.value.origin.at) else None
    case _ => None
  }

  // ---- covered answers are never stale --------------------------------------------------------------

  /** A position that counts as settled is published for good. */
  ghost predicate SettledPublished(w: World, settled: set<nat>) {
    forall i :: i in settled ==> i < |w.published| && w.published[i] > 0
  }

  lemma {:induction false} ClearKeepsCovered(shop: Shop, cap: real, w: World, steps: seq<Step>, w': World,
                                             low: nat, settled: set<nat>)
    requires |w.published| == |w.log| && AllCovered(shop, w, low, settled) && SettledPublished(w, settled)
    requires Run(shop, cap, w, steps, w') && Clear(shop, cap, w, steps)
    ensures |w'.published| == |w'.log| && AllCovered(shop, w', low, settled) && SettledPublished(w', settled)
    ensures Extends(w, w')
    decreases |steps|
  {
    if steps != [] {
      StepExtends(shop, cap, w, steps[0]);
      StepKeepsCovered(shop, cap, w, steps[0], low, settled);
      ClearKeepsCovered(shop, cap, Next(shop, cap, w, steps[0]), steps[1..], w', low, settled);
    }
  }

  lemma ServedSawPublished(shop: Shop, cap: real, e: World, low: nat, settled: set<nat>, before: seq<Step>, w1: World,
                           query: string, steps: seq<Step>, w2: World, i: nat)
    requires |e.published| == |e.log| && AllCovered(shop, e, low, settled) && SettledPublished(e, settled)
    requires low <= e.version
    requires Served(shop, cap, e, before, w1, query, steps, w2, i)
    ensures i < w2.l1[Key(Normalize(query), w1.version)].origin.at
  {
    ClearKeepsCovered(shop, cap, e, before, w1, low, settled);
    BeginCovered(shop, w1, query, low, settled);
    ClearKeepsCovered(shop, cap, Begun(w1, query), steps, w2, low, settled);
    var key := Key(Normalize(query), w1.version);
    assert EntryCovers(w2, key.version, w2.l1[key], settled);
    assert w2.published[i] == w1.published[i];
  }

  lemma BeginCovered(shop: Shop, w: World, query: string, low: nat, settled: set<nat>)
    requires |w.published| == |w.log| && AllCovered(shop, w, low, settled) && SettledPublished(w, settled)
    ensures AllCovered(shop, Begun(w, query), low, settled) && SettledPublished(Begun(w, query), settled)
  {
    var b := Begun(w, query);
    forall t | 0 <= t < |b.turns| && From(b.turns[t], low) ensures TurnCovers(shop, b, b.turns[t], settled) {
      assert t < |w.turns| ==> TurnCovers(shop, w, w.turns[t], settled);
    }
    forall k | k in b.l1 && k.version >= low ensures EntryCovers(b, k.version, b.l1[k], settled) {
      assert EntryCovers(w, k.version, w.l1[k], settled);
    }
  }

  lemma CoveredNeverStale(shop: Shop, cap: real, e: World, low: nat, settled: set<nat>)
    requires |e.published| == |e.log| && AllCovered(shop, e, low, settled) && SettledPublished(e, settled)
    requires low <= e.version
    ensures NeverStale(shop, cap, e)
  {
    forall before, w1, query, steps, w2, i: nat | Served(shop, cap, e, before, w1, query, steps, w2, i)
      ensures i < w2.l1[Key(Normalize(query), w1.version)].origin.at
    {
      ServedSawPublished(shop, cap, e, low, settled, before, w1, query, steps, w2, i);
    }
  }

  // ---- others are ------------------------------------------------------------------------------------

  lemma {:induction false} ClearConcat(shop: Shop, cap: real, w: World, a: seq<Step>, w1: World, b: seq<Step>,
                                       w2: World)
    requires Clear(shop, cap, w, a) && Run(shop, cap, w, a, w1) && Clear(shop, cap, w1, b) && Run(shop, cap, w1, b, w2)
    ensures Clear(shop, cap, w, a + b) && Run(shop, cap, w, a + b, w2)
    decreases |a|
  {
    if a == [] {
      assert a + b == b;
    } else {
      ClearConcat(shop, cap, Next(shop, cap, w, a[0]), a[1..], w1, b, w2);
      assert (a + b)[0] == a[0] && (a + b)[1..] == a[1..] + b;
    }
  }

  lemma ServedAtOnce(shop: Shop, cap: real, e: World, before: seq<Step>, w1: World, query: string, i: nat)
    requires Clear(shop, cap, e, before) && Run(shop, cap, e, before, w1)
    requires var key := Key(Normalize(query), w1.version);
             key in w1.l1 && w1.l1[key].origin.FromIndex? && w1.l1[key].origin.at <= i
    requires i < |w1.published| && w1.published[i] > 0
    ensures Stale(shop, cap, e, before, w1, query, i)
  {
  }

  /** A search answer kept under the present version is given out at once. */
  lemma EntryGoesStale(shop: Shop, cap: real, e: World, k: Key) returns (i: nat)
    requires AllSourced(shop, e) && k in e.l1 && k.version == e.version && e.l1[k].origin.FromIndex?
    requires !SawPublished(e, e.l1[k].origin.at)
    ensures Stale(shop, cap, e, [], e, e.l1[k].origin.asked, i)
  {
    assert Sourced(shop, e.log, k.text, e.l1[k]);
    i :| 0 <= i < |e.published| && e.published[i] > 0 && e.l1[k].origin.at <= i;
    assert k == Key(Normalize(e.l1[k].origin.asked), e.version);
    ServedAtOnce(shop, cap, e, [], e, e.l1[k].origin.asked, i);
  }

  // ---- a turn in flight can always finish ---------------------------------------------------------------

  function Rank(w: World, turn: Turn): nat {
    match turn
    case Asked(_, _) => 9
    case Missed(_, _) => 8
    case Admitted(_, _, _) => if w.visible < |w.log| then 7 else 6
    case Retrieved(_, _, _, _, _, _) => 5
    case Recording(_, _, stage, _, _, _) =>
      (match stage case Settled => 4 case Charged => 3 case Used => 2 case Ledgered => 1)
    case Done => 0
  }

  /** The step that brings the turn on towards storing its answer. */
  function Onwards(w: World, t: nat): Step
    requires t < |w.turns|
  {
    match w.turns[t]
    case Asked(_, _) => Act(t, Lookup(false))
    case Missed(_, _) => Act(t, Admit(true, false))
    case Admitted(_, _, _) => if w.visible < |w.log| then Refresh else Act(t, Retrieve(true))
    case Retrieved(_, _, _, _, _, _) => Act(t, AnswerBySearch(FREE))
    case Recording(_, _, stage, _, _, _) =>
      (match stage
       case Settled => Act(t, ChargeSpend(true))
       case Charged => Act(t, MeterUsage)
       case Used => Act(t, MeterLedger)
       case Ledgered => Act(t, Finish(true)))
    case Done => Refresh
  }

  /** A move brings the turn nearer, with an answer still to keep, under the same key
      and from the same search if that was done. */
  ghost predicate Nearer(shop: Shop, turn: Turn, next: Turn)
    requires !turn.Done?
  {
    && MayKeep(shop, next) && KeyOf(next) == KeyOf(turn)
    && (SearchedAt(turn).Some? ==> SearchedAt(next) == SearchedAt(turn))
  }

  lemma MoveNearer(shop: Shop, cap: real, w: World, turn: Turn, move: Move)
    requires MayKeep(shop, turn) && TurnSourced(shop, w.log, turn)
    requires match turn
             case Asked(_, _) => move == Lookup(false)
             case Missed(_, _) => move == Admit(true, false)
             case Admitted(_, _, _) => move == Retrieve(true)
             case Retrieved(_, _, _, _, _, _) => move == AnswerBySearch(FREE)
             case Recording(_, _, stage, _, _, _) =>
               (match stage
                case Settled => move == ChargeSpend(true)
                case Charged => move == MeterUsage
                case Used => move == MeterLedger
                case Ledgered => false)
             case Done => false
    ensures Ready(shop, turn, move) && Nearer(shop, turn, Advance(shop, cap, w, turn, move))
    ensures var w' := Effect(shop, w, turn, move);
            w'.log == w.log && w'.published == w.published && w'.version == w.version && w'.visible == w.visible
  {
  }

  /** Where the turn stands after its next step. */
  lemma OnwardsAdvances(shop: Shop, cap: real, w: World, t: nat)
    requires AllSourced(shop, w) && t < |w.turns| && MayKeep(shop, w.turns[t])
    requires !(w.turns[t].Recording? && w.turns[t].stage.Ledgered?)
    ensures Enabled(shop, w, Onwards(w, t))
    ensures var w', turn := Next(shop, cap, w, Onwards(w, t)), w.turns[t];
            && w'.log == w.log && w'.published == w.published && w'.version == w.version
            && t < |w'.turns| && Nearer(shop, turn, w'.turns[t]) && Rank(w', w'.turns[t]) < Rank(w, turn)
  {
    assert TurnSourced(shop, w.log, w.turns[t]);
    var s := Onwards(w, t);
    if s.Act? {
      MoveNearer(shop, cap, w, w.turns[t], s.move);
    }
  }

  lemma OnwardsEnabled(shop: Shop, w: World, t: nat)
    requires AllSourced(shop, w) && t < |w.turns| && MayKeep(shop, w.turns[t])
    ensures Enabled(shop, w, Onwards(w, t)) && !Onwards(w, t).Erase?
    ensures Onwards(w, t).Act? && Onwards(w, t).move.Retrieve? ==> AllVisible(w)
  {
    assert TurnSourced(shop, w.log, w.turns[t]);
  }

  lemma ClearStep(shop: Shop, cap: real, w: World, s: Step)
    requires Enabled(shop, w, s) && !s.Erase? && (s.Act? && s.move.Retrieve? ==> AllVisible(w))
    ensures Clear(shop, cap, w, [s]) && Run(shop, cap, w, [s], Next(shop, cap, w, s))
  {
    assert [s][1..] == [];
  }

  /** w' differs from w in having stored the turn's search answer, as far as freshness
      is concerned. */
  ghost predicate Keeps(w: World, turn: Turn, w': World)
    requires !turn.Done?
  {
    && w'.log == w.log && w'.published == w.published && w'.version == w.version
    && KeyOf(turn) in w'.l1 && w'.l1[KeyOf(turn)].origin.FromIndex?
    && (SearchedAt(turn).Some? ==> w'.l1[KeyOf(turn)].origin.at == SearchedAt(turn).value)
  }

  lemma FinishStores(shop: Shop, w: World, turn: Turn)
    requires turn.Recording? && turn.stage.Ledgered? && MayKeep(shop, turn)
    ensures Ready(shop, turn, Finish(true)) && Keeps(w, turn, Effect(shop, w, turn, Finish(true)))
  {
  }

  lemma FinishKeeps(shop: Shop, cap: real, w: World, t: nat)
    requires t < |w.turns| && MayKeep(shop, w.turns[t])
    requires w.turns[t].Recording? && w.turns[t].stage.Ledgered?
    ensures Enabled(shop, w, Onwards(w, t)) && Keeps(w, w.turns[t], Next(shop, cap, w, Onwards(w, t)))
  {
    var turn := w.turns[t];
    FinishStores(shop, w, turn);
    assert Onwards(w, t) == Act(t, Finish(true));
    var w1 := Effect(shop, w, turn, Finish(true));
    assert Next(shop, cap, w, Onwards(w, t)) == w1.(turns := w.turns[t := Advance(shop, cap, w, turn, Finish(true))]);
  }

  lemma ClearAndSourced(shop: Shop, cap: real, w: World, s: Step) returns (next: World)
    requires AllSourced(shop, w) && Enabled(shop, w, s) && !s.Erase?
    requires s.Act? && s.move.Retrieve? ==> AllVisible(w)
    ensures next == Next(shop, cap, w, s)
    ensures Clear(shop, cap, w, [s]) && Run(shop, cap, w, [s], next) && AllSourced(shop, next)
  {
    next := Next(shop, cap, w, s);
    ClearStep(shop, cap, w, s);
    StepKeepsSourced(shop, cap, w, s);
  }

  /** The step is one the run may take, and keeps everything sourced. */
  lemma OnwardsClear(shop: Shop, cap: real, w: World, t: nat) returns (s: Step, next: World)
    requires AllSourced(shop, w) && t < |w.turns| && MayKeep(shop, w.turns[t])
    ensures s == Onwards(w, t) && Enabled(shop, w, s) && next == Next(shop, cap, w, s)
    ensures Clear(shop, cap, w, [s]) && Run(shop, cap, w, [s], next) && AllSourced(shop, next)
  {
    s := Onwards(w, t);
    OnwardsEnabled(shop, w, t);
    next := ClearAndSourced(shop, cap, w, s);
  }

  lemma NearerKeeps(shop: Shop, w: World, turn: Turn, w1: World, turn1: Turn, w': World)
    requires !turn.Done? && Nearer(shop, turn, turn1) && Keeps(w1, turn1, w')
    requires w1.log == w.log && w1.published == w.published && w1.version == w.version
    ensures Keeps(w, turn, w')
  {
  }

  /** Some run in which it stores its search answer. */
  lemma {:induction false} TurnFinishes(shop: Shop, cap: real, w: World, t: nat) returns (steps: seq<Step>, w': World)
    requires AllSourced(shop, w) && t < |w.turns| && MayKeep(shop, w.turns[t])
    ensures Run(shop, cap, w, steps, w') && Clear(shop, cap, w, steps) && AllSourced(shop, w')
    ensures Keeps(w, w.turns[t], w')
    decreases Rank(w, w.turns[t])
  {
    var turn := w.turns[t];
    var s, next := OnwardsClear(shop, cap, w, t);
    if turn.Recording? && turn.stage.Ledgered? {
      FinishKeeps(shop, cap, w, t);
      steps, w' := [s], next;
    } else {
      OnwardsAdvances(shop, cap, w, t);
      var rest;
      rest, w' := TurnFinishes(shop, cap, next, t);
      NearerKeeps(shop, w, turn, next, next.turns[t], w');
      ClearConcat(shop, cap, w, [s], next, rest, w');
      steps := [s] + rest;
    }
  }

  lemma PrependStale(shop: Shop, cap: real, e: World, steps: seq<Step>, w: World, before: seq<Step>, w1: World,
                     query: string, i: nat)
    requires Clear(shop, cap, e, steps) && Run(shop, cap, e, steps, w)
    requires Stale(shop, cap, w, before, w1, query, i)
    ensures Stale(shop, cap, e, steps + before, w1, query, i)
  {
    ClearConcat(shop, cap, e, steps, w, before, w1);
  }

  /** So is one a turn in flight will keep under it. */
  lemma TurnGoesStale(shop: Shop, cap: real, e: World, t: nat)
    requires AllSourced(shop, e) && t < |e.turns| && From(e.turns[t], e.version) && e.turns[t].version == e.version
    requires SearchedAt(e.turns[t]).Some? && !SawPublished(e, SearchedAt(e.turns[t]).value)
    ensures !NeverStale(shop, cap, e)
  {
    var steps, w := TurnFinishes(shop, cap, e, t);
    var k := KeyOf(e.turns[t]);
    var i := EntryGoesStale(shop, cap, w, k);
    PrependStale(shop, cap, e, steps, w, [], w, w.l1[k].origin.asked, i);
  }

  // ---- under any refresh delay ---------------------------------------------------------------------

  /** Without erases no version is above the present one. */
  ghost predicate InRange(w: World) {
    && |w.published| == |w.log|
    && (forall i :: 0 <= i < |w.published| ==> w.published[i] <= w.version)
    && (forall k :: k in w.l1 ==> k.version <= w.version)
    && (forall t :: 0 <= t < |w.turns| && !w.turns[t].Done? ==> w.turns[t].version <= w.version)
  }

  lemma StepInRange(shop: Shop, cap: real, w: World, step: Step)
    requires InRange(w) && Enabled(shop, w, step) && !step.Erase?
    ensures InRange(Next(shop, cap, w, step))
  {
    var w' := Next(shop, cap, w, step);
    StepExtends(shop, cap, w, step);
    forall k | k in w'.l1 ensures k.version <= w'.version {
      EntryWasThereOrStored(shop, cap, w, step, k);
    }
    forall t | 0 <= t < |w'.turns| && !w'.turns[t].Done? ensures w'.turns[t].version <= w'.version {
      if t < |w.turns| {
        StaysFrom(shop, cap, w, step, t, w'.turns[t].version);
      }
    }
  }

  lemma {:induction false} RunInRange(shop: Shop, cap: real, w: World, steps: seq<Step>, w': World)
    requires InRange(w) && Run(shop, cap, w, steps, w') && NoErase(steps)
    ensures InRange(w')
    decreases |steps|
  {
    if steps != [] {
      assert steps[0] in steps;
      StepInRange(shop, cap, w, steps[0]);
      RunInRange(shop, cap, Next(shop, cap, w, steps[0]), steps[1..], w');
    }
  }

  /** Every search answer cached under the present version, and every one that a turn in
      flight has searched for to keep under it, saw all that is published. */
  predicate SeenAtVersion(w: World) {
    && (forall k :: k in w.l1 && k.version == w.version && w.l1[k].origin.FromIndex? ==>
          SawPublished(w, w.l1[k].origin.at))
    && (forall t :: 0 <= t < |w.turns| && From(w.turns[t], w.version) && SearchedAt(w.turns[t]).Some? ==>
          SawPublished(w, SearchedAt(w.turns[t]).value))
  }

  lemma SeenIsCovered(shop: Shop, w: World)
    requires InRange(w) && SeenAtVersion(w)
    ensures AllCovered(shop, w, w.version, {})
  {
    forall t | 0 <= t < |w.turns| && From(w.turns[t], w.version) ensures TurnCovers(shop, w, w.turns[t], {}) {
      assert SearchedAt(w.turns[t]).Some? ==> SawPublished(w, SearchedAt(w.turns[t]).value);
    }
    forall k | k in w.l1 && k.version >= w.version ensures EntryCovers(w, k.version, w.l1[k], {}) {
      assert w.l1[k].origin.FromIndex? ==> SawPublished(w, w.l1[k].origin.at);
    }
  }

  /** In every state reached without an erase, however late the index has refreshed, no
      continuation whose searches see what is published serves a turn a cached search
      answer that misses a change published before it began, exactly when none is kept
      under the present version, or about to be, that misses one already. */
  lemma DelayKeepsFreshIff(shop: Shop, cap: real, w0: World, steps: seq<Step>, w: World)
    requires Init(w0) && Run(shop, cap, w0, steps, w) && NoErase(steps)
    ensures NeverStale(shop, cap, w) <==> SeenAtVersion(w)
  {
    InitFresh(shop, w0);
    RunKeepsSourced(shop, cap, w0, steps, w);
    RunInRange(shop, cap, w0, steps, w);
    if SeenAtVersion(w) {
      SeenIsCovered(shop, w);
      CoveredNeverStale(shop, cap, w, w.version, {});
    } else if k :| k in w.l1 && k.version == w.version && w.l1[k].origin.FromIndex?
                   && !SawPublished(w, w.l1[k].origin.at) {
      var i := EntryGoesStale(shop, cap, w, k);
    } else {
      var t :| 0 <= t < |w.turns| && From(w.turns[t], w.version) && SearchedAt(w.turns[t]).Some?
               && !SawPublished(w, SearchedAt(w.turns[t]).value);
      TurnGoesStale(shop, cap, w, t);
    }
  }

  // ---- a failing input -------------------------------------------------------------------------------

  /** A new change is written and published, as any sync writer does. */
  function Announced(w: World, c: Change): World
    requires |w.published| == |w.log|
  {
    w.(log := w.log + [c], published := w.published + [w.version + 1], version := w.version + 1)
  }

  lemma AnnounceRuns(shop: Shop, cap: real, w: World, c: Change)
    requires |w.published| == |w.log|
    ensures var steps := [Write(c), Publish({|w.log|})];
            Clear(shop, cap, w, steps) && Run(shop, cap, w, steps, Announced(w, c))
  {
    var steps := [Write(c), Publish({|w.log|})];
    var w1 := Next(shop, cap, w, steps[0]);
    var w2 := Next(shop, cap, w1, steps[1]);
    assert w2.published == w.published + [w.version + 1];
    assert w2 == Announced(w, c);
    assert steps[1..] == [steps[1]] && steps[1..][1..] == [];
    assert Run(shop, cap, w1, steps[1..], w2) && Clear(shop, cap, w1, steps[1..]);
  }

  /** One turn leaves an answer from the index under the version it read. */
  lemma AnsweredFromIndex(setup: Setup, w: World, query: string) returns (steps: seq<Step>, w': World)
    requires setup.shop.rules(query).None? && Key(Normalize(query), w.version) !in w.l1
    ensures Run(setup.shop, setup.cap, w, steps, w') && OwnSteps(steps, |w.turns|, FREE)
    ensures w'.log == w.log && w'.published == w.published && w'.version == w.version
    ensures var key := Key(Normalize(query), w.version);
            key in w'.l1 && w'.l1[key].origin.FromIndex? && w'.l1[key].origin.at == |Searched(w)|
  {
    var reply := ReplyFrom(F.Endpoint("local", "", true, 0, 0), "");
    var e := Ladder(setup, w, query, ALL_UP, reply);
    steps := TurnIsRun(setup, w, query, ALL_UP, reply, FREE);
    w' := AfterTurn(w, Key(Normalize(query), w.version), FREE, e.entry, !e.localOnly, ALL_UP);
  }

  /** A turn that searches before the index has refreshed leaves an answer that misses
      the change published under the very version it is kept under, for the next turn
      that asks the same. */
  lemma DelayServesStale(setup: Setup, query: string, change: Change)
    returns (w0: World, steps: seq<Step>, w: World)
    requires setup.shop.rules(query).None?
    ensures Init(w0) && Run(setup.shop, setup.cap, w0, steps, w) && NoErase(steps)
    ensures w.log == [change] && w.published == [1] && w.version == 1
    ensures var key := Key(Normalize(query), w.version);
            key in w.l1 && w.l1[key].origin.FromIndex? && w.l1[key].origin.at == 0
    ensures !NeverStale(setup.shop, setup.cap, w)
  {
    w0 := EMPTY_WORLD;
    var w1 := Announced(w0, change);
    var first := [Write(change), Publish({0})];
    AnnounceRuns(setup.shop, setup.cap, w0, change);
    var rest;
    rest, w := AnsweredFromIndex(setup, w1, query);
    RunConcat(setup.shop, setup.cap, w0, first, w1, rest, w);
    steps := first + rest;
    assert NoErase(steps);
    assert !SawPublished(w, 0) by {
      assert w.published[0] == 1;
    }
    DelayKeepsFreshIff(setup.shop, setup.cap, w0, steps, w);
  }
}
