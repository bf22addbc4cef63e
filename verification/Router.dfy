/** `GatewayRouter.answer_turn` run from start to end (packages/acip_gateway/router.py):
    the ladder with its five exits besides the semantic cache, each of which is a run of
    the stepwise model. */
module Router {
  import opened Wrappers
  import opened CacheKeys
  import opened Pricing
  import opened Gateway
  import F = Failover
  import R = Registry

  datatype Tier = RuleTier | SearchTier | Synthesis | Hard

  /** Which stores answer during the turn. */
  datatype Conditions = Conditions(versionUp: bool, l1Up: bool, budgetUp: bool, walletEmpty: bool, lexical: bool,
                                   pricerUp: bool, chargeUp: bool, storeUp: bool)

  /** Everything a turn consults besides the shared stores. */
  datatype Setup = Setup(shop: Shop, cap: real, classify: string -> Tier, config: Config,
                         prices: map<(string, string), ModelPrice>)

  datatype TurnResult = TurnResult(payload: Payload, rung: Rung, cached: bool, server: Option<F.Endpoint>)

  /** The billed rung of a generated answer: by the preferred rung, unless the
      provider that answered is the one named "local". */
  function RungOf(preferLocal: bool, server: F.Endpoint): Rung {
    if server.provider == "local" || preferLocal then Local else Frontier
  }

  /** `_record`'s price: the pricer's, or the flat rate of the rung if it fails. */
  function Price(setup: Setup, up: bool, r: TurnResult, tokensIn: int, tokensOut: int): Charge {
    if !up then Charge(RungCredits(r.rung), 0.0)
    else
      var known := r.server.Some? && r.server.value.provider != "" && r.server.value.model != ""
                   && (r.server.value.provider, r.server.value.model) in setup.prices;
      var price := if known then Some(setup.prices[(r.server.value.provider, r.server.value.model)]) else None;
      ChargeForTurn(r.rung, setup.config, price, tokensIn, tokensOut)
  }

  lemma PriceNonNegative(setup: Setup, up: bool, r: TurnResult, tokensIn: int, tokensOut: int)
    requires ConfigOk(setup.config)
    ensures Price(setup, up, r, tokensIn, tokensOut).credits >= 0.0
    ensures r.rung.Cache? || r.rung.Rule? ==> Price(setup, up, r, tokensIn, tokensOut) == FREE
  {
  }

  // ---- the ladder as a function ---------------------------------------------------------------

  /** How a turn that starts in world w ends: its result, the answer it stores, and
      the endpoints it may contact. */
  datatype Ending = Ending(result: TurnResult, entry: Option<Entry>, localOnly: bool)

  /** The reply of the providers; the endpoint that gave it. */
  datatype Reply = NoReply | ReplyFrom(server: F.Endpoint, text: string)

  function Ladder(setup: Setup, w: World, query: string, c: Conditions, reply: Reply): Ending {
    var shop, key := setup.shop, Key(Normalize(query), if c.versionUp then w.version else 0);
    if c.l1Up && key in w.l1 then
      Ending(TurnResult(w.l1[key].payload, Cache, true, None), None, true)
    else if shop.rules(query).Some? then
      Templated(query, shop.rules(query).value)
    else Rise(setup, w, query, c, reply)
  }

  function Templated(query: string, text: string): Ending {
    Ending(TurnResult(Payload(text, []), Rule, false, None), Some(Entry(Payload(text, []), FromRule(query))), true)
  }

  /** The ladder once neither cache nor rule has answered. */
  function Rise(setup: Setup, w: World, query: string, c: Conditions, reply: Reply): Ending {
    Climb(setup, query, IndexSeen(w, query, setup.shop, c), |Searched(w)|, c.lexical, IsLocalOnly(setup, w, c), reply)
  }

  function IsLocalOnly(setup: Setup, w: World, c: Conditions): bool {
    LocalOnly(w.spent, setup.cap, w.killed, c.budgetUp) || c.walletEmpty
  }

  function IndexSeen(w: World, query: string, shop: Shop, c: Conditions): seq<Doc> {
    shop.search(IndexAt(Searched(w)), query, c.lexical)
  }

  /** The rungs above the caches and the rules, once the budget and the index have
      been read. */
  function Climb(setup: Setup, query: string, docs: seq<Doc>, at: nat, lexical: bool, localOnly: bool,
                 reply: Reply): Ending {
    var retrieved := Retrieved(query, 0, localOnly, docs, at, lexical);
    var found := Answer(setup.shop, retrieved, None);
    if setup.classify(query).SearchTier? then
      Ending(TurnResult(found.payload, Search, false, None), Some(found), localOnly)
    else if reply.NoReply? then
      Ending(TurnResult(found.payload, Search, false, None), None, localOnly)
    else
      var said := Answer(setup.shop, retrieved, Some(reply.text));
      var rung := RungOf(localOnly || setup.classify(query).Synthesis?, reply.server);
      Ending(TurnResult(said.payload, rung, false, Some(reply.server)), Some(said), localOnly)
  }

  function PrefersLocal(setup: Setup, w: World, query: string, c: Conditions): bool {
    IsLocalOnly(setup, w, c) || setup.classify(query).Synthesis?
  }

  /** What the chain of endpoints replies, as they behave. */
  function ReplyOf(tried: seq<F.Endpoint>, b: F.Behaviour): Reply {
    match F.ServeFrom(tried, b, 0)
    case AllFailed => NoReply
    case Answered(server, text) => ReplyFrom(server, text)
  }

  /** The whole turn, given the endpoints and their behaviour. */
  function TurnOf(setup: Setup, w: World, query: string, c: Conditions, chain: seq<F.Endpoint>,
                  b: F.Behaviour): Ending {
    Ladder(setup, w, query, c, ReplyOf(F.Eligible(chain, PrefersLocal(setup, w, query, c)), b))
  }

  function KeyFor(w: World, query: string, c: Conditions): Key {
    Key(Normalize(query), if c.versionUp then w.version else 0)
  }

  /** The three ways a turn goes: from the cache, by a rule, or up the ladder. */
  lemma TurnGoes(setup: Setup, w: World, query: string, c: Conditions, chain: seq<F.Endpoint>, b: F.Behaviour)
    ensures var e, hit := TurnOf(setup, w, query, c, chain, b), c.l1Up && KeyFor(w, query, c) in w.l1;
            && (hit ==> e == Ending(TurnResult(w.l1[KeyFor(w, query, c)].payload, Cache, true, None), None, true))
            && (!hit && setup.shop.rules(query).Some? ==> e == Templated(query, setup.shop.rules(query).value))
            && (!hit && setup.shop.rules(query).None? ==>
                  e == Rise(setup, w, query, c, ReplyOf(F.Eligible(chain, PrefersLocal(setup, w, query, c)), b)))
            && (e.result.rung.Cache? || e.result.rung.Rule? <==> hit || setup.shop.rules(query).Some?)
  {
  }

  /** A turn is billed at the frontier rate exactly when nothing cheaper could
      serve it: no cached answer, no rule, no search or synthesis intent, budget
      left, and a reply from a provider not named "local". An answer is kept for
      later turns unless it was cached already or generation failed. */
  lemma FrontierIsLastResort(setup: Setup, w: World, query: string, c: Conditions, reply: Reply)
    ensures var e := Ladder(setup, w, query, c, reply);
            var cached := c.l1Up && Key(Normalize(query), if c.versionUp then w.version else 0) in w.l1;
            var tier, ruled := setup.classify(query), setup.shop.rules(query).Some?;
            && (e.result.rung.Frontier?
                <==> !cached && !ruled && !tier.SearchTier? && !tier.Synthesis? && !IsLocalOnly(setup, w, c)
                     && reply.ReplyFrom? && reply.server.provider != "local")
            && (e.entry.None? <==> cached || (!ruled && !tier.SearchTier? && reply.NoReply?))
    ensures setup.cap > 0.0 && w.spent >= setup.cap ==> !Ladder(setup, w, query, c, reply).result.rung.Frontier?
  {
  }

  /** The stores after a turn alone: charged, metered in both tables, and its answer
      kept if it has one to keep. */
  function AfterTurn(w: World, key: Key, charge: Charge, entry: Option<Entry>, paid: bool, c: Conditions): World
    requires charge.credits >= 0.0
  {
    w.(spent := if c.chargeUp then w.spent + charge.credits else w.spent,
       missed := if c.chargeUp then w.missed else w.missed + charge.credits,
       paid := if paid then w.paid + charge.credits else w.paid,
       usage := w.usage + [UsageRow(charge)],
       ledger := if charge.credits > 0.0 then w.ledger + [Debit(charge)] else w.ledger,
       l1 := if c.storeUp && entry.Some? then w.l1[key := entry.value] else w.l1,
       turns := w.turns + [Done])
  }

  /** Steps of turn t alone, which charges so much. */
  predicate OwnSteps(steps: seq<Step>, t: nat, charge: Charge) {
    forall s :: s in steps ==> s.Begin? || (s.Act? && s.t == t && IsCharged(s.move, charge))
  }

  predicate IsCharged(move: Move, charge: Charge) {
    match move
    case AnswerBySearch(c) => c == charge
    case Generate(_, c) => c == charge
    case Degrade(c) => c == charge
    case _ => true
  }

  /** Charging, metering and finishing a settled turn, as steps. */
  function Closing(t: nat, c: Conditions): seq<Step> {
    [Act(t, ChargeSpend(c.chargeUp)), Act(t, MeterUsage), Act(t, MeterLedger), Act(t, Finish(c.storeUp))]
  }

  lemma {:induction false} RunConcat(shop: Shop, cap: real, w: World, a: seq<Step>, w1: World, b: seq<Step>, w2: World)
    requires Run(shop, cap, w, a, w1) && Run(shop, cap, w1, b, w2)
    ensures Run(shop, cap, w, a + b, w2)
    decreases |a|
  {
    if a == [] {
      assert a + b == b;
    } else {
      RunConcat(shop, cap, Next(shop, cap, w, a[0]), a[1..], w1, b, w2);
      assert (a + b)[1..] == a[1..] + b;
    }
  }

  lemma OneStep(shop: Shop, cap: real, w: World, s: Step)
    requires Enabled(shop, w, s)
    ensures Run(shop, cap, w, [s], Next(shop, cap, w, s))
  {
  }

  /** w with one more turn. */
  function With(w: World, turn: Turn): World {
    w.(turns := w.turns + [turn])
  }

  lemma MoveTurn(w: World, turn: Turn, next: Turn)
    ensures With(w, turn).(turns := With(w, turn).turns[|w.turns| := next]) == With(w, next)
  {
  }

  lemma ChargeAndUsage(shop: Shop, cap: real, w: World, turn: Turn, up: bool)
    requires turn.Recording? && turn.stage.Settled?
    ensures Run(shop, cap, With(w, turn), [Act(|w.turns|, ChargeSpend(up)), Act(|w.turns|, MeterUsage)],
                With(Metered(w, turn, up), turn.(stage := Used)))
  {
    var first, second := Act(|w.turns|, ChargeSpend(up)), Act(|w.turns|, MeterUsage);
    var w1 := With(ChargedWorld(w, turn, up), turn.(stage := Charged));
    MoveTurn(w, turn, turn.(stage := Charged));
    OneStep(shop, cap, With(w, turn), first);
    assert Next(shop, cap, With(w, turn), first) == w1;
    MoveTurn(ChargedWorld(w, turn, up), turn.(stage := Charged), turn.(stage := Used));
    OneStep(shop, cap, w1, second);
    assert Next(shop, cap, w1, second) == With(Metered(w, turn, up), turn.(stage := Used));
    RunConcat(shop, cap, With(w, turn), [first], w1, [second], With(Metered(w, turn, up), turn.(stage := Used)));
    assert [first] + [second] == [first, second];
  }

  /** The stores once the turn has charged and written its usage row. */
  function Metered(w: World, turn: Turn, up: bool): World
    requires turn.Recording?
  {
    ChargedWorld(w, turn, up).(usage := w.usage + [UsageRow(turn.charge)])
  }

  /** And once it has written its ledger row and stored its answer. */
  function Closed(m: World, turn: Turn, up: bool): World
    requires turn.Recording? && turn.charge.credits >= 0.0
  {
    var ledger := if turn.charge.credits > 0.0 then m.ledger + [Debit(turn.charge)] else m.ledger;
    m.(ledger := ledger, l1 := if up && turn.entry.Some? then m.l1[KeyOf(turn) := turn.entry.value] else m.l1)
  }

  lemma LedgerAndFinish(shop: Shop, cap: real, w: World, turn: Turn, up: bool)
    requires turn.Recording? && turn.stage.Used? && turn.charge.credits >= 0.0
    ensures Run(shop, cap, With(w, turn), [Act(|w.turns|, MeterLedger), Act(|w.turns|, Finish(up))],
                With(Closed(w, turn, up), Done))
  {
    var first, second := Act(|w.turns|, MeterLedger), Act(|w.turns|, Finish(up));
    var ledger := if turn.charge.credits > 0.0 then w.ledger + [Debit(turn.charge)] else w.ledger;
    var w1 := With(w.(ledger := ledger), turn.(stage := Ledgered));
    MoveTurn(w, turn, turn.(stage := Ledgered));
    OneStep(shop, cap, With(w, turn), first);
    assert Next(shop, cap, With(w, turn), first) == w1;
    MoveTurn(w.(ledger := ledger), turn.(stage := Ledgered), Done);
    OneStep(shop, cap, w1, second);
    assert Next(shop, cap, w1, second) == With(Closed(w, turn, up), Done);
    RunConcat(shop, cap, With(w, turn), [first], w1, [second], With(Closed(w, turn, up), Done));
    assert [first] + [second] == [first, second];
  }

  lemma MeteredThenClosed(w: World, turn: Turn, c: Conditions)
    requires turn.Recording? && turn.charge.credits >= 0.0
    ensures With(Closed(Metered(w, turn, c.chargeUp), turn, c.storeUp), Done)
         == AfterTurn(w, KeyOf(turn), turn.charge, turn.entry, turn.paid, c)
  {
  }

  lemma ClosingRuns(shop: Shop, cap: real, w: World, turn: Turn, c: Conditions)
    requires turn.Recording? && turn.stage.Settled? && turn.charge.credits >= 0.0
    ensures Run(shop, cap, With(w, turn), Closing(|w.turns|, c),
                AfterTurn(w, KeyOf(turn), turn.charge, turn.entry, turn.paid, c))
  {
    var t, used, m := |w.turns|, turn.(stage := Used), Metered(w, turn, c.chargeUp);
    ChargeAndUsage(shop, cap, w, turn, c.chargeUp);
    LedgerAndFinish(shop, cap, m, used, c.storeUp);
    assert Closed(m, used, c.storeUp) == Closed(m, turn, c.storeUp);
    MeteredThenClosed(w, turn, c);
    var a, b := [Act(t, ChargeSpend(c.chargeUp)), Act(t, MeterUsage)], [Act(t, MeterLedger), Act(t, Finish(c.storeUp))];
    RunConcat(shop, cap, With(w, turn), a, With(m, used), b,
              AfterTurn(w, KeyOf(turn), turn.charge, turn.entry, turn.paid, c));
    assert a + b == Closing(t, c);
  }

  /** The turn as it stands before recording, settled by some steps from w. */
  lemma LadderSettles(setup: Setup, w: World, query: string, c: Conditions, reply: Reply, charge: Charge)
    returns (steps: seq<Step>, turn: Turn)
    requires charge.credits >= 0.0
    requires var e := Ladder(setup, w, query, c, reply);
             e.result.rung.Cache? || e.result.rung.Rule? ==> charge == FREE
    ensures Run(setup.shop, setup.cap, w, steps, With(w, turn)) && OwnSteps(steps, |w.turns|, charge)
    ensures var e := Ladder(setup, w, query, c, reply);
            turn == Recording(query, if c.versionUp then w.version else 0, Settled, !e.localOnly, charge, e.entry)
  {
    var shop, cap, t := setup.shop, setup.cap, |w.turns|;
    var v := if c.versionUp then w.version else 0;
    var e := Ladder(setup, w, query, c, reply);
    turn := Recording(query, v, Settled, !e.localOnly, charge, e.entry);
    OneStep(shop, cap, w, Begin(query, c.versionUp));
    var w1 := With(w, Asked(query, v));
    steps := [Begin(query, c.versionUp), Act(t, Lookup(c.l1Up))];
    OneStep(shop, cap, w1, Act(t, Lookup(c.l1Up)));
    var w2 := Next(shop, cap, w1, Act(t, Lookup(c.l1Up)));
    RunConcat(shop, cap, w, [Begin(query, c.versionUp)], w1, [Act(t, Lookup(c.l1Up))], w2);
    if c.l1Up && Key(Normalize(query), v) in w.l1 {
      MoveTurn(w, Asked(query, v), turn);
      return;
    }
    MoveTurn(w, Asked(query, v), Missed(query, v));
    var more := MissSettles(setup, w, query, v, c, reply, charge, turn);
    RunConcat(shop, cap, w, steps, With(w, Missed(query, v)), more, With(w, turn));
    steps := steps + more;
  }

  lemma MissSettles(setup: Setup, w: World, query: string, v: nat, c: Conditions, reply: Reply, charge: Charge,
                    turn: Turn)
    returns (steps: seq<Step>)
    requires charge.credits >= 0.0 && v == if c.versionUp then w.version else 0
    requires !(c.l1Up && Key(Normalize(query), v) in w.l1)
    requires var e := Ladder(setup, w, query, c, reply);
             (e.result.rung.Rule? ==> charge == FREE)
             && turn == Recording(query, v, Settled, !e.localOnly, charge, e.entry)
    ensures Run(setup.shop, setup.cap, With(w, Missed(query, v)), steps, With(w, turn))
    ensures OwnSteps(steps, |w.turns|, charge)
  {
    var shop, cap, t := setup.shop, setup.cap, |w.turns|;
    var w2 := With(w, Missed(query, v));
    if shop.rules(query).Some? {
      OneStep(shop, cap, w2, Act(t, AnswerByRule));
      MoveTurn(w, Missed(query, v), turn);
      return [Act(t, AnswerByRule)];
    }
    var retrieved :=
      Retrieved(query, v, IsLocalOnly(setup, w, c), IndexSeen(w, query, shop, c), |Searched(w)|, c.lexical);
    RetrieveSteps(setup, w, query, v, c);
    var last := ClimbSettles(setup, w, retrieved, reply, charge, turn);
    steps := [Act(t, Admit(c.budgetUp, c.walletEmpty)), Act(t, Retrieve(c.lexical))];
    RunConcat(shop, cap, w2, steps, With(w, retrieved), [last], With(w, turn));
    steps := steps + [last];
  }

  lemma RetrieveSteps(setup: Setup, w: World, query: string, v: nat, c: Conditions)
    requires setup.shop.rules(query).None?
    ensures Run(setup.shop, setup.cap, With(w, Missed(query, v)),
                [Act(|w.turns|, Admit(c.budgetUp, c.walletEmpty)), Act(|w.turns|, Retrieve(c.lexical))],
                With(w, Retrieved(query, v, IsLocalOnly(setup, w, c), IndexSeen(w, query, setup.shop, c), |Searched(w)|,
                                  c.lexical)))
  {
  }

  lemma ClimbSettles(setup: Setup, w: World, from: Turn, reply: Reply, charge: Charge, turn: Turn) returns (last: Step)
    requires from.Retrieved? && charge.credits >= 0.0
    requires var e := Climb(setup, from.query, from.docs, from.at, from.lexical, from.localOnly, reply);
             turn == Recording(from.query, from.version, Settled, !e.localOnly, charge, e.entry)
    ensures Run(setup.shop, setup.cap, With(w, from), [last], With(w, turn)) && OwnSteps([last], |w.turns|, charge)
  {
    var t := |w.turns|;
    last := if setup.classify(from.query).SearchTier? then Act(t, AnswerBySearch(charge))
            else if reply.NoReply? then Act(t, Degrade(charge))
            else Act(t, Generate(reply.text, charge));
    MoveTurn(w, from, turn);
    OneStep(setup.shop, setup.cap, With(w, from), last);
  }

  /** The whole of `answer_turn` on its own is one run of the stepwise model, of its own
      steps only, so what holds of every run holds of it. */
  lemma TurnIsRun(setup: Setup, w: World, query: string, c: Conditions, reply: Reply, charge: Charge)
    returns (steps: seq<Step>)
    requires charge.credits >= 0.0
    requires var e := Ladder(setup, w, query, c, reply);
             e.result.rung.Cache? || e.result.rung.Rule? ==> charge == FREE
    ensures var e := Ladder(setup, w, query, c, reply);
            var key := Key(Normalize(query), if c.versionUp then w.version else 0);
            Run(setup.shop, setup.cap, w, steps, AfterTurn(w, key, charge, e.entry, !e.localOnly, c))
    ensures OwnSteps(steps, |w.turns|, charge)
  {
    var turn;
    steps, turn := LadderSettles(setup, w, query, c, reply, charge);
    ClosingRuns(setup.shop, setup.cap, w, turn, c);
    RunConcat(setup.shop, setup.cap, w, steps, With(w, turn), Closing(|w.turns|, c),
              AfterTurn(w, KeyOf(turn), charge, turn.entry, turn.paid, c));
    steps := steps + Closing(|w.turns|, c);
  }

  // ---- the router ---------------------------------------------------------------------------

  class GatewayRouter {
    const setup: Setup
    var log: seq<Change>
    var published: seq<nat>
    var visible: nat
    var version: nat
    var l1: map<Key, Entry>
    var spent: real
    var killed: bool
    var usage: seq<Charge>
    var ledger: seq<real>
    ghost var missed: real
    ghost var paid: real
    ghost var turns: seq<Turn>

    ghost function State(): World
      reads this
    {
      World(log, published, visible, version, l1, spent, missed, killed, paid, usage, ledger, turns)
    }

    constructor (setup: Setup)
      ensures Init(State()) && this.setup == setup
    {
      this.setup := setup;
      log, published, visible, version, l1, spent, killed, usage, ledger := [], [], 0, 0, map[], 0.0, false, [], [];
      missed, paid, turns := 0.0, 0.0, [];
    }

    /** `_record`: charge Redis, then the usage row, then the ledger row. */
    method Record(r: TurnResult, tokensIn: int, tokensOut: int, c: Conditions, ghost toPaid: bool)
      returns (charge: Charge)
      requires ConfigOk(setup.config)
      modifies `spent, `usage, `ledger, `missed, `paid
      ensures charge == Price(setup, c.pricerUp, r, tokensIn, tokensOut) && charge.credits >= 0.0
      ensures spent == (if c.chargeUp then old(spent) + charge.credits else old(spent))
      ensures usage == old(usage) + [UsageRow(charge)]
      ensures ledger == if charge.credits > 0.0 then old(ledger) + [Debit(charge)] else old(ledger)
      ensures missed == if c.chargeUp then old(missed) else old(missed) + charge.credits
      ensures paid == if toPaid then old(paid) + charge.credits else old(paid)
    {
      charge := Price(setup, c.pricerUp, r, tokensIn, tokensOut);
      PriceNonNegative(setup, c.pricerUp, r, tokensIn, tokensOut);
      if charge.credits > 0.0 && c.chargeUp {
        spent := spent + charge.credits;
      }
      usage := usage + [UsageRow(charge)];
      if charge.credits > 0.0 {
        ledger := ledger + [Debit(charge)];
      }
      missed := if c.chargeUp then missed else missed + charge.credits;
      paid := if toPaid then paid + charge.credits else paid;
    }

    /** `_store`, with the exact-match cache only. */
    method StoreAnswer(key: Key, entry: Entry, c: Conditions)
      modifies `l1
      ensures l1 == if c.storeUp then old(l1)[key := entry] else old(l1)
    {
      if c.storeUp {
        l1 := l1[key := entry];
      }
    }

    /** Generation: the endpoints tried in order, and those contacted. */
    static method AskProviders(chain: seq<F.Endpoint>, preferLocal: bool, b: F.Behaviour)
      returns (reply: Reply, contacted: seq<F.Endpoint>)
      ensures reply == ReplyOf(F.Eligible(chain, preferLocal), b)
      ensures contacted <= F.Eligible(chain, preferLocal)
      ensures preferLocal ==> F.Locals(contacted)
      ensures reply.ReplyFrom? ==> contacted != [] && reply.server == contacted[|contacted| - 1]
    {
      var outcome, n, attempts := F.TryChain(chain, preferLocal, b);
      contacted := F.Eligible(chain, preferLocal)[..n];
      reply := match outcome case AllFailed => NoReply case Answered(server, text) => ReplyFrom(server, text);
    }

    /** Rung 6 of `answer_turn`: search answer or providers. */
    method Route(query: string, docs: seq<Doc>, at: nat, lexical: bool, localOnly: bool, chain: seq<F.Endpoint>,
                 b: F.Behaviour)
      returns (e: Ending, contacted: seq<F.Endpoint>)
      ensures var preferLocal := localOnly || setup.classify(query).Synthesis?;
              e == Climb(setup, query, docs, at, lexical, localOnly, ReplyOf(F.Eligible(chain, preferLocal), b))
      ensures localOnly ==> F.Locals(contacted)
      ensures e.result.server.Some? ==> contacted != [] && e.result.server.value == contacted[|contacted| - 1]
    {
      var tier := setup.classify(query);
      var retrieved := Retrieved(query, 0, localOnly, docs, at, lexical);
      var found := Answer(setup.shop, retrieved, None);
      if tier.SearchTier? {
        return Ending(TurnResult(found.payload, Search, false, None), Some(found), localOnly), [];
      }
      var preferLocal := localOnly || tier.Synthesis?;
      var reply;
      reply, contacted := AskProviders(chain, preferLocal, b);
      if reply.NoReply? {
        return Ending(TurnResult(found.payload, Search, false, None), None, localOnly), contacted;
      }
      var said := Answer(setup.shop, retrieved, Some(reply.text));
      var r := TurnResult(said.payload, RungOf(preferLocal, reply.server), false, Some(reply.server));
      e := Ending(r, Some(said), localOnly);
    }

    /** Rungs 4 and 5 of `answer_turn`, then 6: budget, retrieval and the answer. */
    method Ascend(query: string, c: Conditions, chain: seq<F.Endpoint>, b: F.Behaviour)
      returns (e: Ending, contacted: seq<F.Endpoint>)
      ensures e == Rise(setup, State(), query, c, ReplyOf(F.Eligible(chain, PrefersLocal(setup, State(), query, c)), b))
      ensures IsLocalOnly(setup, State(), c) ==> F.Locals(contacted)
      ensures e.result.server.Some? ==> contacted != [] && e.result.server.value == contacted[|contacted| - 1]
    {
      var localOnly := LocalOnly(spent, setup.cap, killed, c.budgetUp) || c.walletEmpty;
      var seen := if visible <= |log| then log[..visible] else log;
      var docs := setup.shop.search(IndexAt(seen), query, c.lexical);
      e, contacted := Route(query, docs, |seen|, c.lexical, localOnly, chain, b);
    }

    /** The exits of `answer_turn` up to its recording. */
    method Decide(query: string, c: Conditions, chain: seq<F.Endpoint>, b: F.Behaviour)
      returns (e: Ending, contacted: seq<F.Endpoint>)
      ensures e == TurnOf(setup, State(), query, c, chain, b)
      ensures IsLocalOnly(setup, State(), c) ==> F.Locals(contacted)
      ensures e.result.rung.Cache? || e.result.rung.Rule? ==> contacted == []
      ensures e.result.server.Some? ==> contacted != [] && e.result.server.value == contacted[|contacted| - 1]
    {
      TurnGoes(setup, State(), query, c, chain, b);
      var key := Key(Normalize(query), if c.versionUp then version else 0);
      if c.l1Up && key in l1 {
        return Ending(TurnResult(l1[key].payload, Cache, true, None), None, true), [];
      }
      if setup.shop.rules(query).Some? {
        return Templated(query, setup.shop.rules(query).value), [];
      }
      e, contacted := Ascend(query, c, chain, b);
    }

    /** `answer_turn`. A turn admitted local_only contacts local endpoints only, and
        a cached or templated one none and for free. */
    method AnswerTurn(query: string, c: Conditions, chain: seq<F.Endpoint>, b: F.Behaviour, tokensIn: int,
                      tokensOut: int)
      returns (r: TurnResult, contacted: seq<F.Endpoint>, charge: Charge)
      requires ConfigOk(setup.config)
      modifies this
      ensures r == TurnOf(setup, old(State()), query, c, chain, b).result
      ensures charge == Price(setup, c.pricerUp, r, tokensIn, tokensOut) && charge.credits >= 0.0
      ensures var e := TurnOf(setup, old(State()), query, c, chain, b);
              State() == AfterTurn(old(State()), KeyFor(old(State()), query, c), charge, e.entry, !e.localOnly, c)
      ensures IsLocalOnly(setup, old(State()), c) ==> F.Locals(contacted)
      ensures r.rung.Cache? || r.rung.Rule? ==> charge == FREE && contacted == []
      ensures r.server.Some? ==> contacted != [] && r.server.value == contacted[|contacted| - 1]
    {
      var key := Key(Normalize(query), if c.versionUp then version else 0);
      var e;
      e, contacted := Decide(query, c, chain, b);
      r := e.result;
      PriceNonNegative(setup, c.pricerUp, r, tokensIn, tokensOut);
      charge := Conclude(r, e.entry, e.localOnly, key, tokensIn, tokensOut, c);
    }

    /** What every exit does: record, and store the answer it keeps. */
    method Conclude(r: TurnResult, entry: Option<Entry>, localOnly: bool, key: Key, tokensIn: int, tokensOut: int,
                    c: Conditions)
      returns (charge: Charge)
      requires ConfigOk(setup.config)
      modifies this
      ensures charge == Price(setup, c.pricerUp, r, tokensIn, tokensOut) && charge.credits >= 0.0
      ensures State() == AfterTurn(old(State()), key, charge, entry, !localOnly, c)
    {
      charge := Record(r, tokensIn, tokensOut, c, !localOnly);
      if entry.Some? {
        StoreAnswer(key, entry.value, c);
      }
      turns := turns + [Done];
    }
  }

  // ---- who is billed as local ------------------------------------------------------------------------

  /** Every turn that a local endpoint of the chain answers is billed at the local
      rate, whatever is asked, whatever state the stores are in and however the
      endpoints behave. */
  ghost predicate LocalServedBilledLocal(chain: seq<F.Endpoint>) {
    forall setup, w, query, c, b ::
      var r := TurnOf(setup, w, query, c, chain, b).result;
      r.server.Some? && r.server.value.isLocal ==> r.rung.Local?
  }

  predicate LocalsNamedLocal(chain: seq<F.Endpoint>) {
    forall e :: e in chain && e.isLocal ==> e.provider == "local"
  }

  /** Only endpoint j replies. */
  function OnlyReplies(j: nat): F.Behaviour {
    (e: nat, i: nat) => if e == j then F.Reply("") else F.Raised(F.Other)
  }

  lemma {:induction false} OnlyServes(tried: seq<F.Endpoint>, j: nat, e: nat)
    requires e <= j < |tried|
    ensures F.ServeFrom(tried, OnlyReplies(j), e) == F.Answered(tried[j], "")
    decreases j - e
  {
    assert F.CallsOf(OnlyReplies(j), e)(0) == OnlyReplies(j)(e, 0);
    if e < j {
      OnlyServes(tried, j, e + 1);
    }
  }

  lemma {:induction false} ServerIsTried(tried: seq<F.Endpoint>, b: F.Behaviour, e: nat)
    ensures F.ServeFrom(tried, b, e).Answered? ==> F.ServeFrom(tried, b, e).server in tried
    decreases |tried| - e
  {
    if e < |tried| {
      ServerIsTried(tried, b, e + 1);
    }
  }

  /** A shop without rules whose every question is hard, with no cap. */
  function HardSetup(config: Config): Setup {
    Setup(Shop(q => None, (index, q, lexical) => [], "", ""), 0.0, q => Hard, config, map[])
  }

  const EMPTY_WORLD := World([], [], 0, 0, map[], 0.0, 0.0, false, 0.0, [], [], [])

  const ALL_UP := Conditions(true, true, true, false, false, true, true, true)

  /** A hard question with budget left, answered by endpoint j. */
  lemma HardTurn(chain: seq<F.Endpoint>, j: nat, config: Config)
    requires j < |chain|
    ensures var r := TurnOf(HardSetup(config), EMPTY_WORLD, "", ALL_UP, chain, OnlyReplies(j)).result;
            r.server == Some(chain[j]) && r.rung == RungOf(false, chain[j])
  {
    OnlyServes(chain, j, 0);
  }

  lemma NamedLocalIsBilledLocal(setup: Setup, w: World, query: string, c: Conditions, chain: seq<F.Endpoint>,
                                b: F.Behaviour)
    requires LocalsNamedLocal(chain)
    ensures var r := TurnOf(setup, w, query, c, chain, b).result;
            r.server.Some? && r.server.value.isLocal ==> r.rung.Local?
  {
    ServerIsTried(F.Eligible(chain, PrefersLocal(setup, w, query, c)), b, 0);
  }

  /** Every locally served turn of a chain is billed as local exactly when every local
      endpoint of the chain is named "local". Otherwise some turn that fails over to
      a local endpoint under another name pays a whole frontier credit. */
  lemma LocalServedBilledLocalIff(chain: seq<F.Endpoint>, config: Config)
    ensures LocalServedBilledLocal(chain) <==> LocalsNamedLocal(chain)
    ensures !LocalsNamedLocal(chain) ==>
              exists j :: 0 <= j < |chain| && chain[j].isLocal
                       && var r := TurnOf(HardSetup(config), EMPTY_WORLD, "", ALL_UP, chain, OnlyReplies(j)).result;
                          r.server == Some(chain[j]) && r.rung.Frontier?
                          && Price(HardSetup(config), true, r, 0, 0) == Charge(1.0, 0.0)
  {
    if LocalsNamedLocal(chain) {
      forall setup, w, query, c, b
        ensures var r := TurnOf(setup, w, query, c, chain, b).result;
                r.server.Some? && r.server.value.isLocal ==> r.rung.Local?
      {
        NamedLocalIsBilledLocal(setup, w, query, c, chain, b);
      }
    } else {
      var j :| 0 <= j < |chain| && chain[j].isLocal && chain[j].provider != "local";
      HardTurn(chain, j, config);
    }
  }

  /** For the registry's chain, the environment's local model being named "local" as it
      is: exactly when every local endpoint the admin routes to is named "local", or, with
      failover switched off, the first of them. */
  lemma RoutesBilledLocalIff(admin: seq<F.Endpoint>, failover: bool, env: R.Env, config: Config)
    requires R.EnvOk(env) && env.local.provider == "local"
    ensures var locals := F.OnlyLocal(admin);
            LocalServedBilledLocal(R.Chain(admin, failover, env))
            <==> LocalsNamedLocal(if failover || locals == [] then locals else [locals[0]])
  {
    LocalServedBilledLocalIff(R.Chain(admin, failover, env), config);
    R.FullChain(admin, env);
    if !failover && admin != [] {
      R.SwitchedOffLocal(admin, env);
    }
  }
}
