/** Chat turns, sync writers and switches of one tenant, interleaved step by step
    (packages/acip_gateway/router.py, packages/acip_gateway/budget.py,
    packages/acip_assistant/rag.py, services/worker/tasks.py, services/api/runtime.py).
    Each step is one access to a shared store; a turn that stops taking steps is a
    request that died there. */
module Gateway {
  import opened Wrappers
  import opened CacheKeys
  import opened Pricing
  import Ingest

  datatype Doc = Doc(id: string, title: string)

  datatype Change = Upsert(write: Ingest.Write) | Delete(id: string)

  datatype Payload = Payload(answer: string, citations: seq<Doc>)

  /** Where a stored answer came from: the question it answered then and, unless a
      rule answered, how much of the index's history the search saw and what the
      provider replied, if one was asked. */
  datatype Origin = FromRule(asked: string) | FromIndex(asked: string, at: nat, lexical: bool, reply: Option<string>)

  datatype Entry = Entry(payload: Payload, origin: Origin)

  /** Cache keys of one tenant; CacheKeyInjective says their digests tell them apart. */
  datatype Key = Key(text: string, version: nat)

  /** How far a settled turn has recorded itself. */
  datatype Stage = Settled | Charged | Used | Ledgered

  datatype Turn =
    | Asked(query: string, version: nat)
    | Missed(query: string, version: nat)
    | Admitted(query: string, version: nat, localOnly: bool)
    | Retrieved(query: string, version: nat, localOnly: bool, docs: seq<Doc>, at: nat, lexical: bool)
    | Recording(query: string, version: nat, stage: Stage, paid: bool, charge: Charge, entry: Option<Entry>)
    | Done

  /** The deterministic parts a turn calls: FAQ rules, the index's search and
      the wording of a search answer. */
  datatype Shop = Shop(rules: string -> Option<string>, search: (Ingest.Index, string, bool) -> seq<Doc>,
                       nothing: string, header: string)

  datatype World = World(
    log: seq<Change>,        // index changes in the order the index took them
    published: seq<nat>,     // the version each was published under; 0: not yet
    visible: nat,            // how many of the changes searches see
    version: nat,
    l1: map<Key, Entry>,
    spent: real,             // Redis spend counter
    missed: real,            // charges Redis was down for
    killed: bool,
    paid: real,              // charges of turns admitted without local_only
    usage: seq<Charge>,
    ledger: seq<real>,
    turns: seq<Turn>)

  /** What a turn does next, each one access to a store it shares. */
  datatype Move =
    | Lookup(up: bool)
    | AnswerByRule
    | Admit(up: bool, walletEmpty: bool)
    | Retrieve(lexical: bool)
    | AnswerBySearch(charge: Charge)
    | Generate(text: string, charge: Charge)
    | Degrade(charge: Charge)
    | ChargeSpend(up: bool)
    | MeterUsage
    | MeterLedger
    | Finish(up: bool)
    | Abandon

  datatype Step =
    | Begin(query: string, up: bool)
    | Act(t: nat, move: Move)
    | Expire(key: Key)
    | Write(change: Change)
    | Refresh
    | Publish(positions: set<nat>)
    | Erase(deletions: seq<Change>)
    | Kill(on: bool)
    | Grant(credits: real)
    | MeterSearch

  function IndexAt(log: seq<Change>): Ingest.Index {
    if log == [] then map[]
    else
      var before := IndexAt(log[..|log| - 1]);
      match log[|log| - 1]
      case Upsert(w) => Ingest.Apply(before, w)
      case Delete(id) => before - {id}
  }

  /** The changes a search sees. */
  function Searched(w: World): seq<Change> {
    if w.visible <= |w.log| then w.log[..w.visible] else w.log
  }

  function Top5(docs: seq<Doc>): seq<Doc> {
    if |docs| <= 5 then docs else docs[..5]
  }

  function Titles(docs: seq<Doc>): string {
    if docs == [] then ""
    else if docs[0].title == "" then Titles(docs[1..])
    else "\n- " + docs[0].title + Titles(docs[1..])
  }

  function SearchAnswer(shop: Shop, docs: seq<Doc>): string {
    if docs == [] then shop.nothing else shop.header + Titles(Top5(docs))
  }

  /** The budget's verdict; a cap of 0 means no cap, an unreadable store means local. */
  function LocalOnly(spent: real, cap: real, killed: bool, up: bool): bool {
    !up || killed || (cap > 0.0 && spent >= cap)
  }

  function KeyOf(turn: Turn): Key
    requires !turn.Done?
  {
    Key(Normalize(turn.query), turn.version)
  }

  const FREE := Charge(0.0, 0.0)

  /** Can the turn make the move? */
  predicate Ready(shop: Shop, turn: Turn, move: Move) {
    match move
    case Lookup(_) => turn.Asked?
    case AnswerByRule => turn.Missed? && shop.rules(turn.query).Some?
    case Admit(_, _) => turn.Missed? && shop.rules(turn.query).None?
    case Retrieve(_) => turn.Admitted?
    case AnswerBySearch(charge) => turn.Retrieved? && charge.credits >= 0.0
    case Generate(_, charge) => turn.Retrieved? && charge.credits >= 0.0
    case Degrade(charge) => turn.Retrieved? && charge.credits >= 0.0
    case ChargeSpend(_) => turn.Recording? && turn.stage.Settled?
    case MeterUsage => turn.Recording? && turn.stage.Charged?
    case MeterLedger => turn.Recording? && turn.stage.Used? && turn.charge.credits >= 0.0
    case Finish(_) => turn.Recording? && turn.stage.Ledgered?
    case Abandon => turn.Recording? ==> turn.stage.Settled?
  }

  /** The turn after the move, given what it reads of the shared stores. */
  function Advance(shop: Shop, cap: real, w: World, turn: Turn, move: Move): Turn
    requires Ready(shop, turn, move)
  {
    match move
    case Lookup(up) =>
      if up && KeyOf(turn) in w.l1 then Recording(turn.query, turn.version, Settled, false, FREE, None)
      else Missed(turn.query, turn.version)
    case AnswerByRule =>
      var entry := Entry(Payload(shop.rules(turn.query).value, []), FromRule(turn.query));
      Recording(turn.query, turn.version, Settled, false, FREE, Some(entry))
    case Admit(up, walletEmpty) =>
      Admitted(turn.query, turn.version, LocalOnly(w.spent, cap, w.killed, up) || walletEmpty)
    case Retrieve(lexical) =>
      var docs := shop.search(IndexAt(Searched(w)), turn.query, lexical);
      Retrieved(turn.query, turn.version, turn.localOnly, docs, |Searched(w)|, lexical)
    case AnswerBySearch(charge) => Settle(turn, charge, Some(Answer(shop, turn, None)))
    case Generate(text, charge) => Settle(turn, charge, Some(Answer(shop, turn, Some(text))))
    case Degrade(charge) => Settle(turn, charge, None)
    case ChargeSpend(_) => turn.(stage := Charged)
    case MeterUsage => turn.(stage := Used)
    case MeterLedger => turn.(stage := Ledgered)
    case Finish(_) => Done
    case Abandon => Done
  }

  function Settle(turn: Turn, charge: Charge, entry: Option<Entry>): Turn
    requires turn.Retrieved?
  {
    Recording(turn.query, turn.version, Settled, !turn.localOnly, charge, entry)
  }

  /** The answer over the retrieved documents: the provider's reply, or with none
      the list of the best matches. */
  function Answer(shop: Shop, turn: Turn, reply: Option<string>): Entry
    requires turn.Retrieved?
  {
    var text := if reply.Some? then reply.value else SearchAnswer(shop, turn.docs);
    Entry(Payload(text, Top5(turn.docs)), FromIndex(turn.query, turn.at, turn.lexical, reply))
  }

  /** What the move does to the shared stores. */
  function Effect(shop: Shop, w: World, turn: Turn, move: Move): World
    requires Ready(shop, turn, move)
  {
    match move
    case ChargeSpend(up) => ChargedWorld(w, turn, up)
    case MeterUsage => w.(usage := w.usage + [UsageRow(turn.charge)])
    case MeterLedger => w.(ledger := if turn.charge.credits > 0.0 then w.ledger + [Debit(turn.charge)] else w.ledger)
    case Finish(up) => w.(l1 := if up && turn.entry.Some? then w.l1[KeyOf(turn) := turn.entry.value] else w.l1)
    case _ => w
  }

  function ChargedWorld(w: World, turn: Turn, up: bool): World
    requires turn.Recording?
  {
    w.(spent := if up then w.spent + turn.charge.credits else w.spent,
       missed := if up then w.missed else w.missed + turn.charge.credits,
       paid := if turn.paid then w.paid + turn.charge.credits else w.paid)
  }

  /** `erase_tenant_data` as these stores see it: documents go, the data version's
      key is deleted, cached answers stay. */
  function Erased(w: World, deletions: seq<Change>): World {
    w.(log := w.log + deletions, published := w.published + seq(|deletions|, _ => 0), version := 0)
  }

  predicate Enabled(shop: Shop, w: World, step: Step) {
    match step
    case Act(t, move) => t < |w.turns| && Ready(shop, w.turns[t], move)
    case Write(_) => |w.published| == |w.log|
    case Publish(_) => |w.published| == |w.log|
    case Erase(_) => |w.published| == |w.log|
    case Grant(credits) => credits > 0.0
    case _ => true
  }

  function Next(shop: Shop, cap: real, w: World, step: Step): World
    requires Enabled(shop, w, step)
  {
    match step
    case Begin(query, up) => w.(turns := w.turns + [Asked(query, if up then w.version else 0)])
    case Act(t, move) =>
      Effect(shop, w, w.turns[t], move).(turns := w.turns[t := Advance(shop, cap, w, w.turns[t], move)])
    case Expire(key) => w.(l1 := w.l1 - {key})
    case Write(change) => w.(log := w.log + [change], published := w.published + [0])
    case Refresh => w.(visible := |w.log|)
    case Erase(deletions) => Erased(w, deletions)
    case Publish(positions) =>
      var version := w.version + 1;
      w.(version := version,
         published := seq(|w.log|, i requires 0 <= i < |w.log| =>
                                   if i in positions && w.published[i] == 0 then version else w.published[i]))
    case Kill(on) => w.(killed := on)
    case Grant(credits) => w.(ledger := w.ledger + [credits])
    case MeterSearch => w.(usage := w.usage + [FREE])
  }

  /** A ledger row's delta has four decimals. */
  function Debit(charge: Charge): real
    requires charge.credits >= 0.0
  {
    -Round(charge.credits, 10000.0)
  }

  predicate Init(w: World) {
    w == World([], [], 0, 0, map[], 0.0, 0.0, w.killed, 0.0, [], [], [])
  }

  predicate Run(shop: Shop, cap: real, w: World, steps: seq<Step>, w': World)
    decreases |steps|
  {
    if steps == [] then w == w'
    else Enabled(shop, w, steps[0]) && Run(shop, cap, Next(shop, cap, w, steps[0]), steps[1..], w')
  }
}
