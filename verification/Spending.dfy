/** What turns may spend, and the three records of it, over every run of the gateway
    (packages/acip_gateway/budget.py, services/api/runtime.py,
    packages/acip_billing/ledger.py). */
module Spending {
  import opened Wrappers
  import opened Pricing
  import opened Gateway
  import R = Router

  // ---- sums over the turns --------------------------------------------------------------------

  function Sum(turns: seq<Turn>, f: Turn -> real): real {
    if turns == [] then 0.0 else Sum(turns[..|turns| - 1], f) + f(turns[|turns| - 1])
  }

  lemma {:induction false} SumUpdate(turns: seq<Turn>, t: nat, x: Turn, f: Turn -> real)
    requires t < |turns|
    ensures Sum(turns[t := x], f) == Sum(turns, f) - f(turns[t]) + f(x)
  {
    var init := turns[..|turns| - 1];
    if t == |turns| - 1 {
      assert turns[t := x][..t] == init;
    } else {
      SumUpdate(init, t, x, f);
      assert turns[t := x][..|turns| - 1] == init[t := x];
    }
  }

  lemma SumAppend(turns: seq<Turn>, x: Turn, f: Turn -> real)
    ensures Sum(turns + [x], f) == Sum(turns, f) + f(x)
  {
  }

  // ---- the spending bound --------------------------------------------------------------------

  /** Admitted to the paid rungs and not yet charged. */
  predicate PaidPending(turn: Turn) {
    match turn
    case Admitted(_, _, localOnly) => !localOnly
    case Retrieved(_, _, localOnly, _, _, _) => !localOnly
    case Recording(_, _, stage, paid, _, _) => paid && stage.Settled?
    case _ => false
  }

  function One(turn: Turn): real {
    if PaidPending(turn) then 1.0 else 0.0
  }

  function InFlight(w: World): real {
    Sum(w.turns, One)
  }

  ghost predicate ChargesWithin(w: World, most: real) {
    forall t :: 0 <= t < |w.turns| && w.turns[t].Recording? ==> 0.0 <= w.turns[t].charge.credits <= most
  }

  /** Is the charge a move settles on, if it settles one, one that ok allows? */
  predicate MoveCharges(move: Move, ok: real -> bool) {
    match move
    case AnswerBySearch(charge) => ok(charge.credits)
    case Generate(_, charge) => ok(charge.credits)
    case Degrade(charge) => ok(charge.credits)
    case _ => true
  }

  predicate StepCharges(step: Step, ok: real -> bool) {
    step.Act? ==> MoveCharges(step.move, ok)
  }

  predicate StepWithin(step: Step, most: real) {
    StepCharges(step, (c: real) => c <= most)
  }

  ghost predicate Bounded(w: World, cap: real, n: real, most: real) {
    && ChargesWithin(w, most)
    && w.paid <= w.spent + w.missed && w.missed >= 0.0
    && w.paid + Reserve(most, InFlight(w)) <= cap + Reserve(most, n) + w.missed
  }

  /** How a step moves the number of turns in flight. */
  lemma StepMoves(shop: Shop, cap: real, w: World, step: Step)
    requires Enabled(shop, w, step)
    ensures InFlight(Next(shop, cap, w, step)) == InFlight(w) + Moved(shop, cap, w, step, One)
  {
    if step.Act? {
      SumUpdate(w.turns, step.t, Advance(shop, cap, w, w.turns[step.t], step.move), One);
    } else if step.Begin? {
      SumAppend(w.turns, Asked(step.query, if step.up then w.version else 0), One);
    }
  }

  /** The change of a sum over the turns: that of the turn that moves. */
  function Moved(shop: Shop, cap: real, w: World, step: Step, f: Turn -> real): real
    requires Enabled(shop, w, step)
  {
    match step
    case Act(t, move) => f(Advance(shop, cap, w, w.turns[t], move)) - f(w.turns[t])
    case Begin(query, up) => f(Asked(query, if up then w.version else 0))
    case _ => 0.0
  }

  /** A move admits a turn to the paid rungs only below the cap, and takes one out
      of flight only by charging or abandoning it. */
  lemma AdvanceMoves(shop: Shop, cap: real, w: World, turn: Turn, move: Move)
    requires Ready(shop, turn, move)
    ensures var d := One(Advance(shop, cap, w, turn, move)) - One(turn);
            match move
            case Admit(_, _) => d == 0.0 || (d == 1.0 && (cap > 0.0 ==> w.spent < cap))
            case ChargeSpend(_) => d == -One(turn)
            case Abandon => d == -One(turn)
            case _ => d == 0.0
  {
  }

  lemma StepKeepsCharges(shop: Shop, cap: real, w: World, step: Step, most: real)
    requires Enabled(shop, w, step) && ChargesWithin(w, most) && StepWithin(step, most) && most >= 0.0
    ensures ChargesWithin(Next(shop, cap, w, step), most)
  {
  }

  /** What n turns could still be charged. */
  function Reserve(most: real, n: real): real {
    most * n
  }

  lemma ReserveMoves(most: real, k: real, d: real)
    requires d == 0.0 || d == 1.0 || d == -1.0
    ensures Reserve(most, k + d) == Reserve(most, k) + if d == 1.0 then most else if d == -1.0 then -most else 0.0
  {
  }

  lemma AtMost(most: real, k: real, n: real)
    requires most >= 0.0 && k <= n
    ensures Reserve(most, k) <= Reserve(most, n)
  {
  }

  lemma StepKeepsBound(shop: Shop, cap: real, w: World, step: Step, n: real, most: real)
    requires Enabled(shop, w, step) && Bounded(w, cap, n, most) && cap > 0.0 && most >= 0.0
    requires StepWithin(step, most) && InFlight(Next(shop, cap, w, step)) <= n
    ensures Bounded(Next(shop, cap, w, step), cap, n, most)
  {
    StepKeepsCharges(shop, cap, w, step, most);
    StepMoves(shop, cap, w, step);
    var k, k' := InFlight(w), InFlight(Next(shop, cap, w, step));
    if step.Act? {
      AdvanceMoves(shop, cap, w, w.turns[step.t], step.move);
      ReserveMoves(most, k, k' - k);
      assert k + (k' - k) == k';
      AtMost(most, k', n);
      MoveKeepsBound(shop, cap, w, w.turns[step.t], step.move, most, Reserve(most, k), Reserve(most, k'),
                     Reserve(most, n));
    } else {
      assert k' == k;
    }
  }

  lemma MoveKeepsBound(shop: Shop, cap: real, w: World, turn: Turn, move: Move, most: real, before: real, after: real,
                       limit: real)
    requires Ready(shop, turn, move) && cap > 0.0 && (turn.Recording? ==> 0.0 <= turn.charge.credits <= most)
    requires most >= 0.0
    requires w.paid <= w.spent + w.missed && w.missed >= 0.0 && w.paid + before <= cap + limit + w.missed
    requires var d := One(Advance(shop, cap, w, turn, move)) - One(turn);
             after == before + if d == 1.0 then most else if d == -1.0 then -most else 0.0
    requires after <= limit
    ensures var w' := Effect(shop, w, turn, move);
            w'.paid <= w'.spent + w'.missed && w'.missed >= 0.0 && w'.paid + after <= cap + limit + w'.missed
  {
  }

  /** A run in which no more than n turns are ever between their admission to the
      paid rungs and their charge, and no turn is charged more than `most`. */
  ghost predicate RunWithin(shop: Shop, cap: real, n: real, most: real, w: World, steps: seq<Step>, w': World)
    decreases |steps|
  {
    && InFlight(w) <= n
    && if steps == [] then w == w'
       else Enabled(shop, w, steps[0]) && StepWithin(steps[0], most)
            && RunWithin(shop, cap, n, most, Next(shop, cap, w, steps[0]), steps[1..], w')
  }

  lemma {:induction false} RunKeepsBound(shop: Shop, cap: real, n: real, most: real, w: World, steps: seq<Step>,
                                         w': World)
    requires cap > 0.0 && most >= 0.0
    requires Bounded(w, cap, n, most) && RunWithin(shop, cap, n, most, w, steps, w')
    ensures Bounded(w', cap, n, most) && InFlight(w') >= 0.0
    decreases |steps|
  {
    if steps == [] {
      SumOfOnes(w'.turns);
    } else {
      StepKeepsBound(shop, cap, w, steps[0], n, most);
      RunKeepsBound(shop, cap, n, most, Next(shop, cap, w, steps[0]), steps[1..], w');
    }
  }

  lemma {:induction false} SumOfOnes(turns: seq<Turn>)
    ensures Sum(turns, One) >= 0.0
  {
    if turns != [] {
      SumOfOnes(turns[..|turns| - 1]);
    }
  }

  /** Redis was up for every charge. */
  predicate AllCounted(steps: seq<Step>) {
    forall s :: s in steps && s.Act? && s.move.ChargeSpend? ==> s.move.up
  }

  /** With a positive cap, whatever the interleaving, everything ever charged by
      turns admitted to the paid rungs stays within the cap, one largest charge for
      each of n turns in flight, and what Redis failed to count. */
  lemma SpendingIsBounded(shop: Shop, cap: real, n: real, most: real, w0: World, steps: seq<Step>, w: World)
    requires cap > 0.0 && most >= 0.0 && n >= 0.0
    requires Init(w0) && RunWithin(shop, cap, n, most, w0, steps, w)
    ensures w.paid <= cap + n * most + w.missed
    ensures AllCounted(steps) ==> w.paid <= cap + n * most
  {
    assert most * n >= 0.0;
    RunKeepsBound(shop, cap, n, most, w0, steps, w);
    assert most * InFlight(w) >= 0.0;
    if AllCounted(steps) {
      NothingMissed(shop, cap, n, most, w0, steps, w);
    }
  }

  lemma {:induction false} NothingMissed(shop: Shop, cap: real, n: real, most: real, w: World, steps: seq<Step>,
                                         w': World)
    requires RunWithin(shop, cap, n, most, w, steps, w') && AllCounted(steps)
    ensures w'.missed == w.missed
    decreases |steps|
  {
    if steps != [] {
      assert steps[0] in steps;
      NothingMissed(shop, cap, n, most, Next(shop, cap, w, steps[0]), steps[1..], w');
    }
  }

  /** A cap of 0 is no cap: without a kill switch spending never turns a turn local. */
  lemma ZeroCapNeverLimits(spent: real, cap: real, killed: bool)
    ensures (forall s: real :: !LocalOnly(s, cap, killed, true)) <==> cap <= 0.0 && !killed
  {
    if cap > 0.0 {
      assert LocalOnly(cap, cap, killed, true);
    } else if killed {
      assert LocalOnly(0.0, cap, killed, true);
    }
  }

  // ---- the three records of spending ------------------------------------------------------------

  /** Charged in Redis but not yet in the usage events, or not yet in the ledger. */
  function OwedToUsage(turn: Turn): real {
    if turn.Recording? && turn.stage.Charged? then turn.charge.credits else 0.0
  }

  function OwedToLedger(turn: Turn): real {
    if turn.Recording? && (turn.stage.Charged? || turn.stage.Used?) then turn.charge.credits else 0.0
  }

  /** `usage_summary`'s used credits: minus the negative deltas. */
  function UsedCredits(ledger: seq<real>): real {
    if ledger == [] then 0.0
    else UsedCredits(ledger[..|ledger| - 1]) - if ledger[|ledger| - 1] < 0.0 then ledger[|ledger| - 1] else 0.0
  }

  /** Storing any turn's charge is off by at most eu in the usage column and el in
      the ledger column. */
  ghost predicate RoundsWithin(c: real, eu: real, el: real) {
    && c >= 0.0
    && -eu <= Round(c, 1000000.0) - c <= eu
    && -el <= Round(c, 10000.0) - c <= el
  }

  /** x and y differ by at most e for each row. */
  ghost predicate Near(x: real, y: real, rows: nat, e: real) {
    -Allowance(rows, e) <= x - y <= Allowance(rows, e)
  }

  function Allowance(rows: nat, e: real): real {
    if rows == 0 then 0.0 else Allowance(rows - 1, e) + e
  }

  lemma {:induction false} AllowanceIsProduct(rows: nat, e: real)
    ensures Allowance(rows, e) == rows as real * e
  {
    if rows > 0 {
      AllowanceIsProduct(rows - 1, e);
      assert rows as real * e == (rows - 1) as real * e + e;
    }
  }

  ghost predicate Agreed(w: World, eu: real, el: real) {
    && eu >= 0.0 && el >= 0.0
    && (forall t :: 0 <= t < |w.turns| && w.turns[t].Recording? ==> RoundsWithin(w.turns[t].charge.credits, eu, el))
    && Near(TotalCredits(w.usage) + Sum(w.turns, OwedToUsage), w.spent + w.missed, |w.usage|, eu)
    && Near(UsedCredits(w.ledger) + Sum(w.turns, OwedToLedger), w.spent + w.missed, |w.ledger|, el)
  }

  lemma OneMoreRow(x: real, y: real, rows: nat, e: real, d: real)
    requires Near(x, y, rows, e) && -e <= d <= e
    ensures Near(x + d, y, rows + 1, e)
  {
  }

  lemma UsageGrows(usage: seq<Charge>, c: Charge)
    ensures TotalCredits(usage + [c]) == TotalCredits(usage) + c.credits
  {
  }

  lemma LedgerGrows(ledger: seq<real>, d: real)
    ensures UsedCredits(ledger + [d]) == UsedCredits(ledger) - if d < 0.0 then d else 0.0
  {
  }

  lemma OwedMoves(shop: Shop, cap: real, w: World, step: Step)
    requires Enabled(shop, w, step)
    ensures var w' := Next(shop, cap, w, step);
            && Sum(w'.turns, OwedToUsage) == Sum(w.turns, OwedToUsage) + Moved(shop, cap, w, step, OwedToUsage)
            && Sum(w'.turns, OwedToLedger) == Sum(w.turns, OwedToLedger) + Moved(shop, cap, w, step, OwedToLedger)
  {
    if step.Act? {
      SumUpdate(w.turns, step.t, Advance(shop, cap, w, w.turns[step.t], step.move), OwedToUsage);
      SumUpdate(w.turns, step.t, Advance(shop, cap, w, w.turns[step.t], step.move), OwedToLedger);
    } else if step.Begin? {
      SumAppend(w.turns, Asked(step.query, if step.up then w.version else 0), OwedToUsage);
      SumAppend(w.turns, Asked(step.query, if step.up then w.version else 0), OwedToLedger);
    }
  }

  ghost predicate StepRounds(step: Step, eu: real, el: real) {
    step.Act? ==> match step.move
                  case AnswerBySearch(charge) => RoundsWithin(charge.credits, eu, el)
                  case Generate(_, charge) => RoundsWithin(charge.credits, eu, el)
                  case Degrade(charge) => RoundsWithin(charge.credits, eu, el)
                  case _ => true
  }

  lemma FreeRounds(eu: real, el: real)
    requires eu >= 0.0 && el >= 0.0
    ensures RoundsWithin(0.0, eu, el) && UsageRow(FREE) == FREE
  {
  }

  lemma MoveKeepsUsage(shop: Shop, cap: real, w: World, turn: Turn, move: Move, owed: real, eu: real, el: real)
    requires Ready(shop, turn, move) && (turn.Recording? ==> RoundsWithin(turn.charge.credits, eu, el))
    requires Near(TotalCredits(w.usage) + owed, w.spent + w.missed, |w.usage|, eu)
    ensures var w' := Effect(shop, w, turn, move);
            var d := OwedToUsage(Advance(shop, cap, w, turn, move)) - OwedToUsage(turn);
            Near(TotalCredits(w'.usage) + (owed + d), w'.spent + w'.missed, |w'.usage|, eu)
  {
  }

  lemma MoveKeepsLedger(shop: Shop, cap: real, w: World, turn: Turn, move: Move, owed: real, eu: real, el: real)
    requires Ready(shop, turn, move) && (turn.Recording? ==> RoundsWithin(turn.charge.credits, eu, el))
    requires Near(UsedCredits(w.ledger) + owed, w.spent + w.missed, |w.ledger|, el)
    ensures var w' := Effect(shop, w, turn, move);
            var d := OwedToLedger(Advance(shop, cap, w, turn, move)) - OwedToLedger(turn);
            Near(UsedCredits(w'.ledger) + (owed + d), w'.spent + w'.missed, |w'.ledger|, el)
  {
  }

  lemma StepKeepsSums(shop: Shop, cap: real, w: World, step: Step, eu: real, el: real)
    requires Enabled(shop, w, step) && Agreed(w, eu, el)
    ensures var w' := Next(shop, cap, w, step);
            && Near(TotalCredits(w'.usage) + Sum(w'.turns, OwedToUsage), w'.spent + w'.missed, |w'.usage|, eu)
            && Near(UsedCredits(w'.ledger) + Sum(w'.turns, OwedToLedger), w'.spent + w'.missed, |w'.ledger|, el)
  {
    OwedMoves(shop, cap, w, step);
    match step
    case Act(t, move) =>
      MoveKeepsUsage(shop, cap, w, w.turns[t], move, Sum(w.turns, OwedToUsage), eu, el);
      MoveKeepsLedger(shop, cap, w, w.turns[t], move, Sum(w.turns, OwedToLedger), eu, el);
    case MeterSearch =>
      UsageGrows(w.usage, FREE);
      OneMoreRow(TotalCredits(w.usage) + Sum(w.turns, OwedToUsage), w.spent + w.missed, |w.usage|, eu, 0.0);
    case Grant(credits) =>
      LedgerGrows(w.ledger, credits);
      OneMoreRow(UsedCredits(w.ledger) + Sum(w.turns, OwedToLedger), w.spent + w.missed, |w.ledger|, el, 0.0);
    case _ =>
  }

  lemma AdvanceRounds(shop: Shop, cap: real, w: World, turn: Turn, move: Move, eu: real, el: real)
    requires Ready(shop, turn, move) && StepRounds(Act(0, move), eu, el) && RoundsWithin(0.0, eu, el)
    requires turn.Recording? ==> RoundsWithin(turn.charge.credits, eu, el)
    ensures var next := Advance(shop, cap, w, turn, move);
            next.Recording? ==> RoundsWithin(next.charge.credits, eu, el)
  {
  }

  lemma StepKeepsAgreed(shop: Shop, cap: real, w: World, step: Step, eu: real, el: real)
    requires Enabled(shop, w, step) && Agreed(w, eu, el) && StepRounds(step, eu, el)
    ensures Agreed(Next(shop, cap, w, step), eu, el)
  {
    StepKeepsSums(shop, cap, w, step, eu, el);
    FreeRounds(eu, el);
    if step.Act? {
      AdvanceRounds(shop, cap, w, w.turns[step.t], step.move, eu, el);
    }
  }

  lemma {:induction false} RunKeepsAgreed(shop: Shop, cap: real, w: World, steps: seq<Step>, w': World, eu: real,
                                          el: real)
    requires Run(shop, cap, w, steps, w') && Agreed(w, eu, el)
    requires forall s :: s in steps ==> StepRounds(s, eu, el)
    ensures Agreed(w', eu, el)
    decreases |steps|
  {
    if steps != [] {
      assert steps[0] in steps;
      StepKeepsAgreed(shop, cap, w, steps[0], eu, el);
      RunKeepsAgreed(shop, cap, Next(shop, cap, w, steps[0]), steps[1..], w', eu, el);
    }
  }

  /** No turn is between its charge and its ledger row. */
  ghost predicate Quiet(w: World) {
    forall t :: 0 <= t < |w.turns| ==> OwedToUsage(w.turns[t]) == 0.0 && OwedToLedger(w.turns[t]) == 0.0
  }

  lemma {:induction false} QuietOwesNothing(turns: seq<Turn>)
    requires forall t :: 0 <= t < |turns| ==> OwedToUsage(turns[t]) == 0.0 && OwedToLedger(turns[t]) == 0.0
    ensures Sum(turns, OwedToUsage) == 0.0 && Sum(turns, OwedToLedger) == 0.0
  {
    if turns != [] {
      QuietOwesNothing(turns[..|turns| - 1]);
    }
  }

  predicate Whole(step: Step) {
    StepCharges(step, IsWhole)
  }

  /** A whole number of the ledger column's last places. */
  predicate IsWhole(c: real) {
    (c * 10000.0).Floor as real == c * 10000.0
  }

  lemma WholeRounds(c: real)
    requires c >= 0.0 && IsWhole(c)
    ensures RoundsWithin(c, 0.0, 0.0)
  {
    var n := (c * 10000.0).Floor;
    assert c * 1000000.0 == (n * 100) as real;
    RoundIsNear(c, 1000000.0);
    RoundIsNear(c, 10000.0);
  }

  lemma RoundedRecordsAgree(shop: Shop, cap: real, w0: World, steps: seq<Step>, w: World)
    requires Init(w0) && Run(shop, cap, w0, steps, w) && Quiet(w)
    ensures var e := |w.usage| as real * 0.0000005;
            -e <= TotalCredits(w.usage) - (w.spent + w.missed) <= e
    ensures var e := |w.ledger| as real * 0.00005;
            -e <= UsedCredits(w.ledger) - (w.spent + w.missed) <= e
  {
    QuietOwesNothing(w.turns);
    forall s | s in steps ensures StepRounds(s, 0.0000005, 0.00005) {
      RunEnables(shop, cap, w0, steps, w, s);
      StepRoundsNear(s);
    }
    RunKeepsAgreed(shop, cap, w0, steps, w, 0.0000005, 0.00005);
    AllowanceIsProduct(|w.usage|, 0.0000005);
    AllowanceIsProduct(|w.ledger|, 0.00005);
  }

  /** Once every charged turn has written its rows, Redis spend, the usage events
      and the ledger's debits agree up to half a last place for each row, and to the
      last place if every charge is a whole number of the ledger's last places. */
  lemma SpendRecordsAgree(shop: Shop, cap: real, w0: World, steps: seq<Step>, w: World)
    requires Init(w0) && Run(shop, cap, w0, steps, w) && Quiet(w)
    ensures var e := |w.usage| as real * 0.0000005;
            -e <= TotalCredits(w.usage) - (w.spent + w.missed) <= e
    ensures var e := |w.ledger| as real * 0.00005;
            -e <= UsedCredits(w.ledger) - (w.spent + w.missed) <= e
    ensures (forall s :: s in steps ==> Whole(s))
            ==> TotalCredits(w.usage) == UsedCredits(w.ledger) == w.spent + w.missed
  {
    RoundedRecordsAgree(shop, cap, w0, steps, w);
    if forall s :: s in steps ==> Whole(s) {
      WholeRecordsAgree(shop, cap, w0, steps, w);
    }
  }

  lemma WholeRecordsAgree(shop: Shop, cap: real, w0: World, steps: seq<Step>, w: World)
    requires Init(w0) && Run(shop, cap, w0, steps, w) && Quiet(w) && forall s :: s in steps ==> Whole(s)
    ensures TotalCredits(w.usage) == UsedCredits(w.ledger) == w.spent + w.missed
  {
    QuietOwesNothing(w.turns);
    forall s | s in steps ensures StepRounds(s, 0.0, 0.0) {
      RunEnables(shop, cap, w0, steps, w, s);
      StepRoundsWhole(s);
    }
    RunKeepsAgreed(shop, cap, w0, steps, w, 0.0, 0.0);
    AllowanceIsProduct(|w.usage|, 0.0);
    AllowanceIsProduct(|w.ledger|, 0.0);
  }

  /** In every run whose charges are such, the three records are equal once every
      charged turn has written its rows. */
  ghost predicate AlwaysAgree(ok: real -> bool) {
    forall shop, cap, w0, steps, w ::
      Init(w0) && Run(shop, cap, w0, steps, w) && Quiet(w) && (forall s :: s in steps ==> StepCharges(s, ok)) ==>
        TotalCredits(w.usage) == UsedCredits(w.ledger) == w.spent + w.missed
  }

  /** Which charges keep the records equal in every run: whole numbers of the ledger's
      last places, and no others, though rounding can even out in a single run. */
  lemma RecordsAgreeIffWhole(ok: real -> bool)
    ensures AlwaysAgree(ok) <==> forall c: real :: c >= 0.0 && ok(c) ==> IsWhole(c)
  {
    if forall c: real :: c >= 0.0 && ok(c) ==> IsWhole(c) {
      forall shop, cap, w0, steps, w |
        Init(w0) && Run(shop, cap, w0, steps, w) && Quiet(w) && (forall s :: s in steps ==> StepCharges(s, ok))
        ensures TotalCredits(w.usage) == UsedCredits(w.ledger) == w.spent + w.missed
      {
        forall s | s in steps ensures Whole(s) {
          RunEnables(shop, cap, w0, steps, w, s);
        }
        WholeRecordsAgree(shop, cap, w0, steps, w);
      }
    } else {
      var c: real :| c >= 0.0 && ok(c) && !IsWhole(c);
      var shop, cap, w0, steps, w := OneTurnDisagrees(c);
      assert forall s :: s in steps ==> StepCharges(s, ok);
    }
  }

  /** One turn charged c, and its records. */
  lemma OneTurnDisagrees(c: real) returns (shop: Shop, cap: real, w0: World, steps: seq<Step>, w: World)
    requires c >= 0.0 && !IsWhole(c)
    ensures Init(w0) && Run(shop, cap, w0, steps, w) && Quiet(w)
    ensures forall s :: s in steps ==> StepCharges(s, (x: real) => x == c)
    ensures w.spent + w.missed == c && UsedCredits(w.ledger) != c
  {
    var setup := R.HardSetup(Config(0.0001, 30.0, 0.01, ModelPrice(0.0, 0.0)));
    var charge := Charge(c, 0.0);
    shop, cap, w0 := setup.shop, setup.cap, R.EMPTY_WORLD;
    steps := R.TurnIsRun(setup, w0, "", R.ALL_UP, R.NoReply, charge);
    w := R.AfterTurn(w0, Key("", 0), charge, None, true, R.ALL_UP);
    assert c > 0.0 by {
      assert IsWhole(0.0);
    }
    RoundIsWhole(c);
    LedgerGrows([], Debit(charge));
    assert [] + [Debit(charge)] == [Debit(charge)];
  }

  lemma RoundIsWhole(c: real)
    requires c >= 0.0
    ensures IsWhole(Round(c, 10000.0))
  {
    var n := (c * 10000.0 + 0.5).Floor;
    assert Round(c, 10000.0) * 10000.0 == n as real;
  }

  predicate NonNegative(step: Step) {
    StepCharges(step, (c: real) => c >= 0.0)
  }

  lemma {:induction false} RunEnables(shop: Shop, cap: real, w: World, steps: seq<Step>, w': World, s: Step)
    requires Run(shop, cap, w, steps, w') && s in steps
    ensures NonNegative(s)
    decreases |steps|
  {
    if s != steps[0] {
      RunEnables(shop, cap, Next(shop, cap, w, steps[0]), steps[1..], w', s);
    }
  }

  lemma StepRoundsNear(s: Step)
    requires NonNegative(s)
    ensures StepRounds(s, 0.0000005, 0.00005)
  {
  }

  lemma StepRoundsWhole(s: Step)
    requires NonNegative(s) && Whole(s)
    ensures StepRounds(s, 0.0, 0.0)
  {
    if s.Act? && (s.move.AnswerBySearch? || s.move.Generate? || s.move.Degrade?) {
      WholeRounds(s.move.charge.credits);
    }
  }
}
