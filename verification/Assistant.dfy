/** The assistant around the router (packages/acip_assistant/rag.py,
    packages/acip_assistant/guardrails.py): a turn's answer is checked only after the
    router has stored it. */
module Assistant {
  import opened Wrappers
  import opened CacheKeys
  import opened Pricing
  import opened Gateway
  import opened Freshness
  import opened Router
  import F = Failover

  /** The words that make a reply without documents acceptable, and the wording of
      the replacement for one that is not. */
  datatype Guard = Guard(markers: seq<string>, sorry: string, header: string)

  predicate Contains(text: string, part: string) {
    part <= text || (text != "" && Contains(text[1..], part))
  }

  /** `is_grounded`. */
  predicate IsGrounded(g: Guard, answer: string, docs: seq<Doc>) {
    var a := Lower(StripRight(StripLeft(answer)));
    a != "" && (docs != [] || exists m :: m in g.markers && Contains(a, m))
  }

  function FallbackText(g: Guard, docs: seq<Doc>): string {
    if docs == [] then g.sorry else g.header + Titles(Top5(docs))
  }

  /** The output guardrail: an ungrounded generated answer is replaced, and shown as
      a search answer; any other passes. */
  function Guarded(g: Guard, r: TurnResult): TurnResult {
    if (r.rung.Local? || r.rung.Frontier?) && !IsGrounded(g, r.payload.answer, r.payload.citations) then
      r.(payload := Payload(FallbackText(g, r.payload.citations), r.payload.citations), rung := Search)
    else r
  }

  /** The input guardrail: between one and 2000 characters between the blanks. */
  predicate Passes(query: string) {
    0 < |StripRight(StripLeft(query))| <= 2000
  }

  class RagAssistant {
    const guard: Guard
    const router: GatewayRouter

    constructor (guard: Guard, router: GatewayRouter)
      ensures this.guard == guard && this.router == router
    {
      this.guard, this.router := guard, router;
    }

    /** `answer`; None is the refusal of an unacceptable question, which takes no turn. */
    method Ask(query: string, c: Conditions, chain: seq<F.Endpoint>, b: F.Behaviour, tokensIn: int, tokensOut: int)
      returns (shown: Option<TurnResult>)
      requires ConfigOk(router.setup.config)
      modifies router
      ensures shown.Some? <==> Passes(query)
      ensures shown.None? ==> router.State() == old(router.State())
      ensures shown.Some? ==>
                var e := TurnOf(router.setup, old(router.State()), query, c, chain, b);
                shown.value == Guarded(guard, e.result)
                && router.l1 == (if c.storeUp && e.entry.Some?
                                 then old(router.l1)[KeyFor(old(router.State()), query, c) := e.entry.value]
                                 else old(router.l1))
    {
      var trimmed := StripRight(StripLeft(query));
      if |trimmed| == 0 || |trimmed| > 2000 {
        return None;
      }
      var r, contacted, charge := router.AnswerTurn(query, c, chain, b, tokensIn, tokensOut);
      if (r.rung.Local? || r.rung.Frontier?) && !IsGrounded(guard, r.payload.answer, r.payload.citations) {
        r := r.(payload := Payload(FallbackText(guard, r.payload.citations), r.payload.citations), rung := Search);
      }
      shown := Some(r);
    }
  }

  // ---- when an ungrounded reply reaches the shopper ---------------------------------------------------

  /** The shopper gets a provider's reply, not a replacement, and it is ungrounded. */
  predicate ShowsUngrounded(g: Guard, w: World, query: string, c: Conditions, r: TurnResult) {
    var shown := Guarded(g, r);
    && !IsGrounded(g, shown.payload.answer, shown.payload.citations)
    && (shown.rung.Local? || shown.rung.Frontier?
        || (shown.rung.Cache? && KeyFor(w, query, c) in w.l1 && FromProvider(w.l1[KeyFor(w, query, c)])))
  }

  predicate FromProvider(e: Entry) {
    e.origin.FromIndex? && e.origin.reply.Some?
  }

  /** A turn shows an ungrounded reply exactly when the cache answers it with one: the
      guardrail catches every reply of this turn's own and none from the cache. */
  lemma UngroundedShownIff(g: Guard, setup: Setup, w: World, query: string, c: Conditions, chain: seq<F.Endpoint>,
                           b: F.Behaviour)
    ensures ShowsUngrounded(g, w, query, c, TurnOf(setup, w, query, c, chain, b).result)
       <==> c.l1Up && KeyFor(w, query, c) in w.l1 && FromProvider(w.l1[KeyFor(w, query, c)])
            && var stored := w.l1[KeyFor(w, query, c)].payload; !IsGrounded(g, stored.answer, stored.citations)
  {
    TurnGoes(setup, w, query, c, chain, b);
  }

  /** The state after a turn charged so much. */
  function WorldAfter(setup: Setup, w: World, query: string, c: Conditions, chain: seq<F.Endpoint>, b: F.Behaviour,
                      charge: Charge): World
    requires charge.credits >= 0.0
  {
    var e := TurnOf(setup, w, query, c, chain, b);
    AfterTurn(w, KeyFor(w, query, c), charge, e.entry, !e.localOnly, c)
  }

  /** So for a question asked again in the same words, after a provider answered it the
      first time and the first answer showed a reply of its own or a replacement. If that
      answer was stored, the second shows its ungrounded reply exactly when it was
      ungrounded and the lookup works, replaced or not. If storing failed, the second
      shows an ungrounded reply exactly when an older one is still cached, which the
      first lookup failed to find. */
  lemma AskedAgainIff(g: Guard, setup: Setup, w: World, query: string, c: Conditions, chain: seq<F.Endpoint>,
                      b: F.Behaviour, charge: Charge,
                      again: string, c': Conditions, chain': seq<F.Endpoint>, b': F.Behaviour)
    requires charge.credits >= 0.0 && Normalize(again) == Normalize(query) && c'.versionUp == c.versionUp
    requires TurnOf(setup, w, query, c, chain, b).result.server.Some?
    ensures var r, w' := TurnOf(setup, w, query, c, chain, b).result, WorldAfter(setup, w, query, c, chain, b, charge);
            var key := KeyFor(w, query, c);
            && !ShowsUngrounded(g, w, query, c, r) && (c.l1Up ==> key !in w.l1)
            && (ShowsUngrounded(g, w', again, c', TurnOf(setup, w', again, c', chain', b').result) <==>
                c'.l1Up && if c.storeUp then !IsGrounded(g, r.payload.answer, r.payload.citations)
                           else key in w.l1 && FromProvider(w.l1[key])
                                && !IsGrounded(g, w.l1[key].payload.answer, w.l1[key].payload.citations))
  {
    TurnGoes(setup, w, query, c, chain, b);
    var w' := WorldAfter(setup, w, query, c, chain, b, charge);
    assert KeyFor(w', again, c') == KeyFor(w, query, c);
    UngroundedShownIff(g, setup, w, query, c, chain, b);
    UngroundedShownIff(g, setup, w', again, c', chain', b');
  }
}
