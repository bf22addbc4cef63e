/** What cached answers were computed from, over every run of the gateway
    (packages/acip_cache/l1.py, packages/acip_assistant/rag.py,
    services/worker/tasks.py). */
module Freshness {
  import opened Wrappers
  import opened CacheKeys
  import opened Gateway

  // ---- answers are what their origin says ------------------------------------------------------

  /** What searching the index after the first `at` changes gives. */
  function DocsAt(shop: Shop, log: seq<Change>, asked: string, at: nat, lexical: bool): seq<Doc>
    requires at <= |log|
  {
    shop.search(IndexAt(log[..at]), asked, lexical)
  }

  /** The stored answer is a rule's to a question of these words, or cites the best
      five of a search for one, with the provider's reply or the list of matches. */
  ghost predicate Sourced(shop: Shop, log: seq<Change>, text: string, e: Entry) {
    && Normalize(e.origin.asked) == text
    && match e.origin
       case FromRule(asked) => shop.rules(asked) == Some(e.payload.answer) && e.payload.citations == []
       case FromIndex(asked, at, lexical, reply) =>
         && at <= |log| && e.payload.citations == Top5(DocsAt(shop, log, asked, at, lexical))
         && e.payload.answer
            == if reply.Some? then reply.value else SearchAnswer(shop, DocsAt(shop, log, asked, at, lexical))
  }

  ghost predicate TurnSourced(shop: Shop, log: seq<Change>, turn: Turn) {
    match turn
    case Retrieved(query, _, _, docs, at, lexical) => at <= |log| && docs == DocsAt(shop, log, query, at, lexical)
    case Recording(query, _, _, _, charge, entry) =>
      charge.credits >= 0.0 && (entry.Some? ==> Sourced(shop, log, Normalize(query), entry.value))
    case _ => true
  }

  ghost predicate AllSourced(shop: Shop, w: World) {
    && |w.published| == |w.log| && w.visible <= |w.log|
    && (forall k :: k in w.l1 ==> Sourced(shop, w.log, k.text, w.l1[k]))
    && (forall t :: 0 <= t < |w.turns| ==> TurnSourced(shop, w.log, w.turns[t]))
  }

  lemma SourcedKept(shop: Shop, log: seq<Change>, log': seq<Change>, text: string, e: Entry)
    requires log <= log' && Sourced(shop, log, text, e)
    ensures Sourced(shop, log', text, e)
  {
    if e.origin.FromIndex? {
      assert log'[..e.origin.at] == log[..e.origin.at];
    }
  }

  lemma TurnSourcedKept(shop: Shop, log: seq<Change>, log': seq<Change>, turn: Turn)
    requires log <= log' && TurnSourced(shop, log, turn)
    ensures TurnSourced(shop, log', turn)
  {
    match turn
    case Retrieved(_, _, _, _, at, _) =>
      assert log'[..at] == log[..at];
    case Recording(query, _, _, _, _, entry) =>
      if entry.Some? {
        SourcedKept(shop, log, log', Normalize(query), entry.value);
      }
    case _ =>
  }

  lemma AdvanceSourced(shop: Shop, cap: real, w: World, turn: Turn, move: Move)
    requires w.visible <= |w.log| && TurnSourced(shop, w.log, turn) && Ready(shop, turn, move)
    ensures TurnSourced(shop, w.log, Advance(shop, cap, w, turn, move))
  {
  }

  lemma StepGrowsLog(shop: Shop, cap: real, w: World, step: Step)
    requires Enabled(shop, w, step) && |w.published| == |w.log| && w.visible <= |w.log|
    ensures var w' := Next(shop, cap, w, step);
            w.log <= w'.log && |w'.published| == |w'.log| && w'.visible <= |w'.log|
  {
  }

  /** Every step keeps every cached and pending answer true to its origin, an erase
      included. */
  lemma StepKeepsSourced(shop: Shop, cap: real, w: World, step: Step)
    requires AllSourced(shop, w) && Enabled(shop, w, step)
    ensures AllSourced(shop, Next(shop, cap, w, step))
  {
    var w' := Next(shop, cap, w, step);
    StepGrowsLog(shop, cap, w, step);
    forall t | 0 <= t < |w'.turns| ensures TurnSourced(shop, w'.log, w'.turns[t]) {
      NextTurnSourced(shop, cap, w, step, t);
    }
    forall k | k in w'.l1 ensures Sourced(shop, w'.log, k.text, w'.l1[k]) {
      NextEntrySourced(shop, cap, w, step, k);
    }
  }

  lemma NextTurnSourced(shop: Shop, cap: real, w: World, step: Step, t: nat)
    requires AllSourced(shop, w) && Enabled(shop, w, step) && t < |Next(shop, cap, w, step).turns|
    ensures TurnSourced(shop, Next(shop, cap, w, step).log, Next(shop, cap, w, step).turns[t])
  {
    StepGrowsLog(shop, cap, w, step);
    if t < |w.turns| {
      assert TurnSourced(shop, w.log, w.turns[t]);
      if step.Act? && step.t == t {
        AdvanceSourced(shop, cap, w, w.turns[t], step.move);
      }
      TurnSourcedKept(shop, w.log, Next(shop, cap, w, step).log, Next(shop, cap, w, step).turns[t]);
    }
  }

  /** A cached entry was there before the step, or is what a recording turn stored. */
  lemma EntryWasThereOrStored(shop: Shop, cap: real, w: World, step: Step, k: Key)
    requires Enabled(shop, w, step) && k in Next(shop, cap, w, step).l1
    ensures var e := Next(shop, cap, w, step).l1[k];
            || (k in w.l1 && w.l1[k] == e)
            || (step.Act? && w.turns[step.t].Recording? && w.turns[step.t].entry == Some(e)
                && k == KeyOf(w.turns[step.t]))
  {
  }

  lemma NextEntrySourced(shop: Shop, cap: real, w: World, step: Step, k: Key)
    requires AllSourced(shop, w) && Enabled(shop, w, step) && k in Next(shop, cap, w, step).l1
    ensures Sourced(shop, Next(shop, cap, w, step).log, k.text, Next(shop, cap, w, step).l1[k])
  {
    var e := Next(shop, cap, w, step).l1[k];
    EntryWasThereOrStored(shop, cap, w, step, k);
    if !(k in w.l1 && w.l1[k] == e) {
      assert TurnSourced(shop, w.log, w.turns[step.t]);
    }
    StepGrowsLog(shop, cap, w, step);
    SourcedKept(shop, w.log, Next(shop, cap, w, step).log, k.text, e);
  }

  lemma {:induction false} RunKeepsSourced(shop: Shop, cap: real, w: World, steps: seq<Step>, w': World)
    requires AllSourced(shop, w) && Run(shop, cap, w, steps, w')
    ensures AllSourced(shop, w') && w.log <= w'.log
    decreases |steps|
  {
    if steps != [] {
      StepGrowsLog(shop, cap, w, steps[0]);
      StepKeepsSourced(shop, cap, w, steps[0]);
      RunKeepsSourced(shop, cap, Next(shop, cap, w, steps[0]), steps[1..], w');
    }
  }

  // ---- answers cover what was published ----------------------------------------------------------

  /** All changes that count as published for version v are among the first `at`:
      those published under a version up to v, and the `settled` ones, published
      before the versions last started over. */
  ghost predicate Covers(w: World, v: nat, at: nat, settled: set<nat>)
    requires |w.published| == |w.log|
  {
    forall i :: 0 <= i < |w.log| && (i in settled || 0 < w.published[i] <= v) ==> i < at
  }

  ghost predicate EntryCovers(w: World, v: nat, e: Entry, settled: set<nat>)
    requires |w.published| == |w.log|
  {
    e.origin.FromIndex? ==> v <= w.version && Covers(w, v, e.origin.at, settled)
  }

  /** A turn that may still store a search answer does so under a version already
      reached, and its search, if it has been done, covered that version. */
  ghost predicate TurnCovers(shop: Shop, w: World, turn: Turn, settled: set<nat>)
    requires |w.published| == |w.log|
  {
    match turn
    case Done => true
    case Admitted(_, v, _) => v <= w.version
    case Retrieved(_, v, _, _, at, _) => v <= w.version && Covers(w, v, at, settled)
    case Recording(_, v, _, _, _, entry) => entry.Some? ==> EntryCovers(w, v, entry.value, settled)
    case _ => shop.rules(turn.query).None? ==> turn.version <= w.version
  }

  /** Will what the turn stores be kept under a version from `low` on? */
  predicate From(turn: Turn, low: nat) {
    !turn.Done? && turn.version >= low
  }

  /** Every cached and pending answer kept under a version from `low` on covers it. */
  ghost predicate AllCovered(shop: Shop, w: World, low: nat, settled: set<nat>)
    requires |w.published| == |w.log|
  {
    && (forall i :: i in settled ==> i < |w.log|)
    && (forall i :: 0 <= i < |w.log| && i !in settled ==> w.published[i] <= w.version)
    && (forall k :: k in w.l1 && k.version >= low ==> EntryCovers(w, k.version, w.l1[k], settled))
    && (forall t :: 0 <= t < |w.turns| && From(w.turns[t], low) ==> TurnCovers(shop, w, w.turns[t], settled))
  }

  /** w' continues w's history: publications are final, new ones get later versions. */
  ghost predicate Extends(w: World, w': World)
    requires |w.published| == |w.log|
  {
    && |w'.published| == |w'.log| && w.log <= w'.log && w.version <= w'.version
    && (forall i :: 0 <= i < |w.log| && w.published[i] > 0 ==> w'.published[i] == w.published[i])
    && (forall i :: 0 <= i < |w'.log| && 0 < w'.published[i] <= w.version
         ==> i < |w.log| && w.published[i] == w'.published[i])
    && (forall i :: 0 <= i < |w'.log| && (i < |w.log| ==> w.published[i] <= w.version)
         ==> w'.published[i] <= w'.version)
  }

  lemma StepExtends(shop: Shop, cap: real, w: World, step: Step)
    requires |w.published| == |w.log| && Enabled(shop, w, step) && !step.Erase?
    ensures Extends(w, Next(shop, cap, w, step))
  {
  }

  lemma CoversKept(w: World, w': World, v: nat, at: nat, settled: set<nat>)
    requires |w.published| == |w.log| && Extends(w, w') && v <= w.version && Covers(w, v, at, settled)
    requires forall i :: i in settled ==> i < |w.log|
    ensures Covers(w', v, at, settled)
  {
  }

  lemma TurnCoversKept(shop: Shop, w: World, w': World, turn: Turn, settled: set<nat>)
    requires |w.published| == |w.log| && Extends(w, w') && TurnCovers(shop, w, turn, settled)
    requires forall i :: i in settled ==> i < |w.log|
    ensures TurnCovers(shop, w', turn, settled)
  {
    match turn
    case Retrieved(_, v, _, _, at, _) => CoversKept(w, w', v, at, settled);
    case Recording(_, v, _, _, _, entry) =>
      if entry.Some? && entry.value.origin.FromIndex? {
        CoversKept(w, w', v, entry.value.origin.at, settled);
      }
    case _ =>
  }

  /** A search that the step makes sees everything published for its turn. */
  ghost predicate Sees(shop: Shop, w: World, step: Step, settled: set<nat>)
    requires |w.published| == |w.log| && Enabled(shop, w, step)
  {
    step.Act? && step.move.Retrieve? ==> Covers(w, w.turns[step.t].version, |Searched(w)|, settled)
  }

  lemma AdvanceCovers(shop: Shop, cap: real, w: World, turn: Turn, move: Move, settled: set<nat>)
    requires |w.published| == |w.log| && TurnCovers(shop, w, turn, settled) && Ready(shop, turn, move)
    requires move.Retrieve? ==> Covers(w, turn.version, |Searched(w)|, settled)
    ensures TurnCovers(shop, w, Advance(shop, cap, w, turn, move), settled)
  {
  }

  lemma NextTurnCovers(shop: Shop, cap: real, w: World, step: Step, t: nat, low: nat, settled: set<nat>)
    requires |w.published| == |w.log| && AllCovered(shop, w, low, settled) && Enabled(shop, w, step) && !step.Erase?
    requires Sees(shop, w, step, settled) && t < |Next(shop, cap, w, step).turns|
    requires From(Next(shop, cap, w, step).turns[t], low)
    ensures |Next(shop, cap, w, step).published| == |Next(shop, cap, w, step).log|
    ensures TurnCovers(shop, Next(shop, cap, w, step), Next(shop, cap, w, step).turns[t], settled)
  {
    StepExtends(shop, cap, w, step);
    if t < |w.turns| {
      StaysFrom(shop, cap, w, step, t, low);
      assert TurnCovers(shop, w, w.turns[t], settled);
      if step.Act? && step.t == t {
        AdvanceCovers(shop, cap, w, w.turns[t], step.move, settled);
      }
      TurnCoversKept(shop, w, Next(shop, cap, w, step), Next(shop, cap, w, step).turns[t], settled);
    }
  }

  /** A turn keeps the version it read. */
  lemma StaysFrom(shop: Shop, cap: real, w: World, step: Step, t: nat, low: nat)
    requires Enabled(shop, w, step) && t < |w.turns| && From(Next(shop, cap, w, step).turns[t], low)
    ensures From(w.turns[t], low)
  {
  }

  lemma NextEntryCovers(shop: Shop, cap: real, w: World, step: Step, k: Key, low: nat, settled: set<nat>)
    requires |w.published| == |w.log| && AllCovered(shop, w, low, settled) && Enabled(shop, w, step) && !step.Erase?
    requires k in Next(shop, cap, w, step).l1 && k.version >= low
    ensures |Next(shop, cap, w, step).published| == |Next(shop, cap, w, step).log|
    ensures EntryCovers(Next(shop, cap, w, step), k.version, Next(shop, cap, w, step).l1[k], settled)
  {
    var w' := Next(shop, cap, w, step);
    StepExtends(shop, cap, w, step);
    EntryWasThereOrStored(shop, cap, w, step, k);
    if !(k in w.l1 && w.l1[k] == w'.l1[k]) {
      assert From(w.turns[step.t], low);
      assert TurnCovers(shop, w, w.turns[step.t], settled);
    }
    assert EntryCovers(w, k.version, w'.l1[k], settled);
    if w'.l1[k].origin.FromIndex? {
      CoversKept(w, w', k.version, w'.l1[k].origin.at, settled);
    }
  }

  /** Because writers write before they publish and turns read the version before
      they search, every step whose search sees what is published keeps every cached
      and pending answer covering the version it is stored under. */
  lemma StepKeepsCovered(shop: Shop, cap: real, w: World, step: Step, low: nat, settled: set<nat>)
    requires |w.published| == |w.log| && AllCovered(shop, w, low, settled) && Enabled(shop, w, step) && !step.Erase?
    requires Sees(shop, w, step, settled)
    ensures |Next(shop, cap, w, step).published| == |Next(shop, cap, w, step).log|
    ensures AllCovered(shop, Next(shop, cap, w, step), low, settled)
  {
    var w' := Next(shop, cap, w, step);
    StepExtends(shop, cap, w, step);
    forall t | 0 <= t < |w'.turns| && From(w'.turns[t], low) ensures TurnCovers(shop, w', w'.turns[t], settled) {
      NextTurnCovers(shop, cap, w, step, t, low, settled);
    }
    forall k | k in w'.l1 && k.version >= low ensures EntryCovers(w', k.version, w'.l1[k], settled) {
      NextEntryCovers(shop, cap, w, step, k, low, settled);
    }
  }

  // ---- over whole runs ------------------------------------------------------------------------------

  predicate NoErase(steps: seq<Step>) {
    forall s :: s in steps ==> !s.Erase?
  }

  /** Every search of the run sees all that is published up to its turn's version. */
  ghost predicate SearchesSee(shop: Shop, cap: real, w: World, steps: seq<Step>, settled: set<nat>)
    decreases |steps|
  {
    steps == []
    || (Enabled(shop, w, steps[0]) && |w.published| == |w.log| && Sees(shop, w, steps[0], settled)
        && SearchesSee(shop, cap, Next(shop, cap, w, steps[0]), steps[1..], settled))
  }

  lemma {:induction false} RunKeepsCovered(shop: Shop, cap: real, w: World, steps: seq<Step>, w': World, low: nat,
                                           settled: set<nat>)
    requires |w.published| == |w.log| && AllCovered(shop, w, low, settled)
    requires Run(shop, cap, w, steps, w') && NoErase(steps) && SearchesSee(shop, cap, w, steps, settled)
    ensures |w'.published| == |w'.log| && AllCovered(shop, w', low, settled) && Extends(w, w')
    decreases |steps|
  {
    if steps != [] {
      assert steps[0] in steps;
      StepExtends(shop, cap, w, steps[0]);
      StepKeepsCovered(shop, cap, w, steps[0], low, settled);
      RunKeepsCovered(shop, cap, Next(shop, cap, w, steps[0]), steps[1..], w', low, settled);
    }
  }

  lemma InitFresh(shop: Shop, w: World)
    requires Init(w)
    ensures AllSourced(shop, w) && AllCovered(shop, w, 0, {})
  {
  }

  /** The stored answer is what its origin says, and a search behind it saw every
      change published under a version up to the key's. */
  ghost predicate Fresh(shop: Shop, w: World, key: Key, e: Entry)
    requires |w.published| == |w.log|
  {
    Sourced(shop, w.log, key.text, e) && (e.origin.FromIndex? ==> Covers(w, key.version, e.origin.at, {}))
  }

  /** In every reachable state, an answer the cache would give a turn is a rule's, or
      the answer and citations of a search for the same words that saw every change
      published under a version up to the turn's. */
  lemma HitIsFresh(shop: Shop, cap: real, w0: World, steps: seq<Step>, w: World, t: nat)
    requires Init(w0) && Run(shop, cap, w0, steps, w) && NoErase(steps) && SearchesSee(shop, cap, w0, steps, {})
    requires t < |w.turns| && w.turns[t].Asked? && KeyOf(w.turns[t]) in w.l1
    ensures |w.published| == |w.log| && Fresh(shop, w, KeyOf(w.turns[t]), w.l1[KeyOf(w.turns[t])])
  {
    InitFresh(shop, w0);
    RunKeepsSourced(shop, cap, w0, steps, w);
    RunKeepsCovered(shop, cap, w0, steps, w, 0, {});
    assert EntryCovers(w, KeyOf(w.turns[t]).version, w.l1[KeyOf(w.turns[t])], {});
  }

  /** So a turn that reads the version while Redis is up never gets a cached search
      answer that misses a change published before it began, however writers and
      other turns interleave until its lookup. */
  lemma NothingPublishedIsMissed(shop: Shop, cap: real, w0: World, before: seq<Step>, w1: World, query: string,
                                 steps: seq<Step>, w2: World, t: nat, i: nat)
    requires Init(w0) && Run(shop, cap, w0, before, w1) && NoErase(before) && SearchesSee(shop, cap, w0, before, {})
    requires Run(shop, cap, Begun(w1, query), steps, w2) && NoErase(steps)
    requires SearchesSee(shop, cap, Begun(w1, query), steps, {})
    requires t < |w2.turns| && w2.turns[t] == Asked(query, w1.version) && KeyOf(w2.turns[t]) in w2.l1
    requires w2.l1[KeyOf(w2.turns[t])].origin.FromIndex?
    requires i < |w1.log| && i < |w1.published| && w1.published[i] > 0
    ensures w1.log <= w2.log && i < w2.l1[KeyOf(w2.turns[t])].origin.at <= |w2.log|
  {
    InitFresh(shop, w0);
    RunKeepsSourced(shop, cap, w0, before, w1);
    RunKeepsCovered(shop, cap, w0, before, w1, 0, {});
    assert Begun(w1, query) == Next(shop, cap, w1, Begin(query, true));
    StepKeepsCovered(shop, cap, w1, Begin(query, true), 0, {});
    StepKeepsSourced(shop, cap, w1, Begin(query, true));
    RunKeepsCovered(shop, cap, Begun(w1, query), steps, w2, 0, {});
    RunKeepsSourced(shop, cap, Begun(w1, query), steps, w2);
    var key := KeyOf(w2.turns[t]);
    assert EntryCovers(w2, key.version, w2.l1[key], {}) && Sourced(shop, w2.log, key.text, w2.l1[key]);
    assert w2.published[i] == w1.published[i] <= w1.version;
  }

  /** A turn has read the version with Redis up. */
  function Begun(w: World, query: string): World {
    w.(turns := w.turns + [Asked(query, w.version)])
  }

  /** Where Elasticsearch answers from its latest state, every search sees all. */
  ghost predicate Prompt(shop: Shop, cap: real, w: World, steps: seq<Step>)
    decreases |steps|
  {
    steps == []
    || (Enabled(shop, w, steps[0]) && |w.published| == |w.log|
        && (steps[0].Act? && steps[0].move.Retrieve? ==> w.visible == |w.log|)
        && Prompt(shop, cap, Next(shop, cap, w, steps[0]), steps[1..]))
  }

  lemma {:induction false} PromptSearchesSee(shop: Shop, cap: real, w: World, steps: seq<Step>, settled: set<nat>)
    requires Prompt(shop, cap, w, steps)
    ensures SearchesSee(shop, cap, w, steps, settled)
    decreases |steps|
  {
    if steps != [] {
      PromptSearchesSee(shop, cap, Next(shop, cap, w, steps[0]), steps[1..], settled);
    }
  }
}
