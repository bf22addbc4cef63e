/** Orders, payment, grants and renewals (packages/acip_billing/subscription.py,
    services/api/routers/billing_webhooks.py, services/api/routers/admin_plans.py).
    Money is in cents, credits in hundredths, times in seconds; each handler call is
    one step. */
module Billing {
  import opened Rounding
  import opened Wrappers

  // ---- proration --------------------------------------------------------------------------------

  const DAY := 86400

  /** Seconds of the period still unused, within the period. */
  function Remaining(end: int, now: int, days: nat): nat {
    var left := end - now;
    if left < 0 then 0 else if left > days * DAY then days * DAY else left
  }

  /** `_proration_credit`: the unused share of what the old plan cost. */
  function ProrationCredit(oldPrice: int, end: Option<int>, now: int, days: nat): int
    requires days > 0
  {
    if oldPrice <= 0 || end.None? then 0
    else RoundHalfEven(oldPrice * Remaining(end.value, now, days), days * DAY)
  }

  /** The credit is never negative nor more than the old price, is all of it while a
      whole period is left and nothing once the period is over, and waiting never
      raises it. */
  lemma ProrationWithinPrice(oldPrice: int, end: Option<int>, now: int, later: int, days: nat)
    requires days > 0 && now <= later
    ensures 0 <= ProrationCredit(oldPrice, end, now, days)
    ensures oldPrice >= 0 ==> ProrationCredit(oldPrice, end, now, days) <= oldPrice
    ensures oldPrice > 0 && end.Some? && end.value - now >= days * DAY
            ==> ProrationCredit(oldPrice, end, now, days) == oldPrice
    ensures end.Some? && end.value <= now ==> ProrationCredit(oldPrice, end, now, days) == 0
    ensures ProrationCredit(oldPrice, end, later, days) <= ProrationCredit(oldPrice, end, now, days)
  {
    if oldPrice > 0 && end.Some? {
      var d, r, s := days * DAY, Remaining(end.value, now, days), Remaining(end.value, later, days);
      Scaled(oldPrice, 0, r);
      Scaled(oldPrice, r, d);
      Scaled(oldPrice, s, r);
      RoundMonotone(0, oldPrice * r, d);
      RoundMonotone(oldPrice * r, oldPrice * d, d);
      RoundMonotone(oldPrice * s, oldPrice * r, d);
      RoundOfMultiple(0, d);
      RoundOfMultiple(oldPrice, d);
    }
  }

  lemma Scaled(k: int, a: int, b: int)
    requires k >= 0 && a <= b
    ensures k * a <= k * b
  {
  }

  // ---- the books --------------------------------------------------------------------------------

  datatype Plan = Plan(price: int, credits: int)

  datatype Status = Pending | Paid | Failed | Refunded

  datatype Kind = Subscription(plan: string) | TopUp(credits: int)

  datatype Order = Order(tenant: string, kind: Kind, amount: int, status: Status)

  datatype SubStatus = Trialing | Active | PastDue | Canceled

  datatype Sub = Sub(plan: string, status: SubStatus, periodEnd: Option<int>, cancel: bool)

  /** A ledger grant; `order` is history: the order it settles, None for a downgrade. */
  datatype Grant = Grant(tenant: string, credits: int, order: Option<string>)

  /** An invoice; `credits` is history: what the payment granted. */
  datatype Invoice = Invoice(tenant: string, order: string, amount: int, credits: int)

  datatype Books = Books(
    plans: map<string, Plan>,
    tenants: map<string, string>,   // the plan each tenant is on
    orders: map<string, Order>,
    subs: map<string, Sub>,
    ledger: seq<Grant>,
    invoices: seq<Invoice>)

  function ActiveCredit(b: Books, tenant: string, now: int, days: nat): int
    requires days > 0
  {
    if tenant in b.subs && b.subs[tenant].status.Active? then
      var plan := b.subs[tenant].plan;
      ProrationCredit(if plan in b.plans then b.plans[plan].price else 0, b.subs[tenant].periodEnd, now, days)
    else 0
  }

  /** What a new order for the plan is charged. */
  function OrderAmount(b: Books, tenant: string, plan: string, now: int, days: nat): int
    requires days > 0 && plan in b.plans
  {
    if tenant in b.subs && b.subs[tenant].status.Active?
    then Max0(b.plans[plan].price - ActiveCredit(b, tenant, now, days))
    else b.plans[plan].price
  }

  /** What the preview shows as due. */
  function PreviewAmount(b: Books, tenant: string, plan: string, now: int, days: nat): int
    requires days > 0 && plan in b.plans
  {
    Max0(b.plans[plan].price - ActiveCredit(b, tenant, now, days))
  }

  function Max0(n: int): int {
    if n < 0 then 0 else n
  }

  /** The preview shows what the order then costs, exactly unless the tenant has no
      active subscription and the plan's price is negative. */
  lemma PreviewIsCharged(b: Books, tenant: string, plan: string, now: int, days: nat)
    requires days > 0 && plan in b.plans
    ensures PreviewAmount(b, tenant, plan, now, days) == OrderAmount(b, tenant, plan, now, days)
       <==> b.plans[plan].price >= 0 || (tenant in b.subs && b.subs[tenant].status.Active?)
    ensures 0 <= PreviewAmount(b, tenant, plan, now, days) <= Max0(b.plans[plan].price)
  {
    if tenant in b.subs {
      var current := b.subs[tenant].plan;
      ProrationWithinPrice(if current in b.plans then b.plans[current].price else 0, b.subs[tenant].periodEnd, now, now,
                           days);
    }
  }

  // ---- steps --------------------------------------------------------------------------------------

  datatype Event =
    | PutPlan(code: string, sheet: Plan)
    | DeletePlan(code: string)
    | SignUp(tenant: string, trial: string, now: int)
    | CreateOrder(id: string, tenant: string, plan: string, now: int)
    | CreateTopUp(id: string, tenant: string, credits: int, perUnit: int)
    | Callback(id: string, verified: bool, now: int)
    | Webhook(id: string, signed: bool, paid: bool, now: int)
    | MarkPaid(id: string, now: int)
    | SetCancel(tenant: string, cancel: bool)
    | Renew(selected: seq<string>, trial: string, now: int)
    | Refund(id: string)

  /** Does anything still refer to the plan? */
  predicate InUse(b: Books, code: string) {
    || (exists t :: t in b.tenants && b.tenants[t] == code)
    || (exists t :: t in b.subs && b.subs[t].plan == code)
    || (exists o :: o in b.orders && b.orders[o].kind == Subscription(code))
  }

  /** `activate_plan`; without the plan nothing happens. */
  function Activate(b: Books, tenant: string, code: string, order: Option<string>, now: int, days: nat): Books {
    if code !in b.plans then b
    else
      var credits := b.plans[code].credits;
      b.(tenants := if tenant in b.tenants then b.tenants[tenant := code] else b.tenants,
         subs := b.subs[tenant := Sub(code, Active, Some(now + days * DAY), false)],
         ledger := if credits > 0 then b.ledger + [Grant(tenant, credits, order)] else b.ledger)
  }

  /** What paying the order grants now. */
  function GrantOf(b: Books, o: Order): int {
    match o.kind
    case TopUp(credits) => credits
    case Subscription(plan) => if plan in b.plans && b.plans[plan].credits > 0 then b.plans[plan].credits else 0
  }

  /** `mark_order_paid`. */
  function MarkedPaid(b: Books, id: string, now: int, days: nat): Books {
    if id !in b.orders || b.orders[id].status.Paid? then b
    else
      var o := b.orders[id];
      var paid := b.(orders := b.orders[id := o.(status := Paid)]);
      var granted := match o.kind
        case TopUp(credits) => paid.(ledger := paid.ledger + [Grant(o.tenant, credits, Some(id))])
        case Subscription(plan) => Activate(paid, o.tenant, plan, Some(id), now, days);
      granted.(invoices := granted.invoices + [Invoice(o.tenant, id, o.amount, GrantOf(b, o))])
  }

  function MarkedFailed(b: Books, id: string): Books {
    if id in b.orders && b.orders[id].status.Pending? then b.(orders := b.orders[id := b.orders[id].(status := Failed)])
    else b
  }

  predicate Expired(s: Sub, now: int) {
    s.status.Active? && s.periodEnd.Some? && s.periodEnd.value <= now
  }

  /** The rows the first query of `process_renewals` returns, in some order. */
  ghost predicate Selected(b: Books, selected: seq<string>, now: int) {
    && (forall t :: t in selected <==> t in b.subs && Expired(b.subs[t], now) && b.subs[t].cancel)
    && (forall i, j :: 0 <= i < j < |selected| ==> selected[i] != selected[j])
  }

  function MarkPastDue(b: Books, now: int): Books {
    b.(subs := map t | t in b.subs ::
      if Expired(b.subs[t], now) && !b.subs[t].cancel then b.subs[t].(status := PastDue) else b.subs[t])
  }

  /** Activating the trial plan for one cancelled tenant. */
  function Downgraded(b: Books, tenant: string, trial: string, now: int): Books {
    var a := Activate(b, tenant, trial, None, now, 30);
    if tenant in a.subs then a.(subs := a.subs[tenant := a.subs[tenant].(cancel := false)]) else a
  }

  function DowngradeAll(b: Books, selected: seq<string>, trial: string, now: int): Books {
    if selected == [] then b
    else Downgraded(DowngradeAll(b, selected[..|selected| - 1], trial, now), selected[|selected| - 1], trial, now)
  }

  /** `process_renewals`. */
  function Renewed(b: Books, selected: seq<string>, trial: string, now: int): Books {
    DowngradeAll(MarkPastDue(b, now), selected, trial, now)
  }

  /** `admin_refund`: only the status changes. */
  function Reopened(b: Books, id: string): Books
    requires id in b.orders
  {
    b.(orders := b.orders[id := b.orders[id].(status := Refunded)])
  }

  /** One call, with subscription periods of `days` days. Drawn order ids are new. */
  ghost function After(b: Books, e: Event, days: nat): Books
    requires days > 0
  {
    match e
    case PutPlan(code, sheet) => b.(plans := b.plans[code := sheet])
    case DeletePlan(code) => if InUse(b, code) then b else b.(plans := b.plans - {code})
    case SignUp(tenant, trial, now) =>
      if tenant in b.tenants || trial !in b.plans then b
      else b.(tenants := b.tenants[tenant := trial],
              subs := b.subs[tenant := Sub(trial, Trialing, Some(now + 14 * DAY), false)])
    case CreateOrder(id, tenant, plan, now) =>
      if id in b.orders || plan !in b.plans then b
      else
        var o := Order(tenant, Subscription(plan), OrderAmount(b, tenant, plan, now, days), Pending);
        b.(orders := b.orders[id := o])
    case CreateTopUp(id, tenant, credits, perUnit) =>
      if id in b.orders || credits <= 0 then b
      else
        var amount := RoundHalfEven(credits, if perUnit < 1 then 1 else perUnit);
        b.(orders := b.orders[id := Order(tenant, TopUp(credits), amount, Pending)])
    case Callback(id, verified, now) => if verified then MarkedPaid(b, id, now, days) else MarkedFailed(b, id)
    case Webhook(id, signed, paid, now) => if signed && paid then MarkedPaid(b, id, now, days) else b
    case MarkPaid(id, now) => MarkedPaid(b, id, now, days)
    case SetCancel(tenant, cancel) =>
      if tenant in b.subs then b.(subs := b.subs[tenant := b.subs[tenant].(cancel := cancel)]) else b
    case Renew(selected, trial, now) => if Selected(b, selected, now) then Renewed(b, selected, trial, now) else b
    case Refund(id) => if id in b.orders then Reopened(b, id) else b
  }

  class BillingBooks {
    const days: nat
    var plans: map<string, Plan>
    var tenants: map<string, string>
    var orders: map<string, Order>
    var subs: map<string, Sub>
    var ledger: seq<Grant>
    var invoices: seq<Invoice>

    ghost function State(): Books
      reads this
    {
      Books(plans, tenants, orders, subs, ledger, invoices)
    }

    constructor (days: nat, plans: map<string, Plan>)
      ensures State() == Books(plans, map[], map[], map[], [], []) && this.days == days
    {
      this.days, this.plans := days, plans;
      tenants, orders, subs, ledger, invoices := map[], map[], map[], [], [];
    }

    method CreateOrder(id: string, tenant: string, plan: string, now: int) returns (ok: bool)
      requires days > 0
      modifies this
      ensures State() == After(old(State()), Event.CreateOrder(id, tenant, plan, now), days)
      ensures ok <==> id !in old(orders) && plan in plans
    {
      if id in orders || plan !in plans {
        return false;
      }
      var amount := plans[plan].price;
      if tenant in subs && subs[tenant].status.Active? {
        var current := subs[tenant].plan;
        var price := if current in plans then plans[current].price else 0;
        var credit := ProrationCredit(price, subs[tenant].periodEnd, now, days);
        amount := Max0(amount - credit);
      }
      orders := orders[id := Order(tenant, Subscription(plan), amount, Pending)];
      ok := true;
    }

    method CreateTopUp(id: string, tenant: string, credits: int, perUnit: int) returns (ok: bool)
      requires days > 0
      modifies this
      ensures State() == After(old(State()), Event.CreateTopUp(id, tenant, credits, perUnit), days)
    {
      if id in orders || credits <= 0 {
        return false;
      }
      var amount := RoundHalfEven(credits, if perUnit < 1 then 1 else perUnit);
      orders := orders[id := Order(tenant, TopUp(credits), amount, Pending)];
      ok := true;
    }

    /** `activate_plan`. */
    method ActivatePlan(tenant: string, code: string, order: Option<string>, now: int, period: nat) returns (ok: bool)
      modifies `tenants, `subs, `ledger
      ensures State() == Activate(old(State()), tenant, code, order, now, period)
      ensures ok <==> code in plans
    {
      if code !in plans {
        return false;
      }
      if tenant in tenants {
        tenants := tenants[tenant := code];
      }
      subs := subs[tenant := Sub(code, Active, Some(now + period * DAY), false)];
      if plans[code].credits > 0 {
        ledger := ledger + [Grant(tenant, plans[code].credits, order)];
      }
      ok := true;
    }

    /** `mark_order_paid`; idempotent on a paid order. */
    method MarkOrderPaid(id: string, now: int) returns (found: bool, already: bool)
      modifies this
      ensures State() == MarkedPaid(old(State()), id, now, days)
      ensures found <==> id in old(orders)
      ensures already <==> id in old(orders) && old(orders)[id].status.Paid?
    {
      if id !in orders {
        return false, false;
      }
      var o := orders[id];
      if o.status.Paid? {
        return true, true;
      }
      orders := orders[id := o.(status := Paid)];
      var granted;
      match o.kind {
        case TopUp(credits) =>
          ledger := ledger + [Grant(o.tenant, credits, Some(id))];
          granted := credits;
        case Subscription(plan) =>
          granted := if plan in plans && plans[plan].credits > 0 then plans[plan].credits else 0;
          var ok := ActivatePlan(o.tenant, plan, Some(id), now, days);
      }
      invoices := invoices + [Invoice(o.tenant, id, o.amount, granted)];
      found, already := true, false;
    }

    /** `zarinpal_callback` for the order its authority names: a payment verified
        with the provider settles it, anything else fails a pending one. */
    method Callback(id: string, verified: bool, now: int)
      requires days > 0
      modifies this
      ensures State() == After(old(State()), Event.Callback(id, verified, now), days)
    {
      if id !in orders || orders[id].status.Paid? {
        return;
      }
      if !verified {
        if orders[id].status.Pending? {
          orders := orders[id := orders[id].(status := Failed)];
        }
        return;
      }
      var found, already := MarkOrderPaid(id, now);
    }

    method Webhook(id: string, signed: bool, paid: bool, now: int)
      requires days > 0
      modifies this
      ensures State() == After(old(State()), Event.Webhook(id, signed, paid, now), days)
    {
      if signed && paid {
        var found, already := MarkOrderPaid(id, now);
      }
    }

    /** `delete_plan`: refused while anything refers to the plan. */
    method DeletePlan(code: string) returns (ok: bool)
      requires days > 0
      modifies this
      ensures State() == After(old(State()), Event.DeletePlan(code), days)
    {
      if InUse(Books(plans, tenants, orders, subs, ledger, invoices), code) {
        return false;
      }
      plans := plans - {code};
      ok := true;
    }

    /** `process_renewals`: the rest goes past due, then each selected tenant is
        downgraded in turn. */
    method ProcessRenewals(selected: seq<string>, trial: string, now: int)
      modifies this
      ensures State() == Renewed(old(State()), selected, trial, now)
    {
      subs := map t | t in subs ::
                if Expired(subs[t], now) && !subs[t].cancel then subs[t].(status := PastDue) else subs[t];
      ghost var after := State();
      for i := 0 to |selected|
        invariant State() == DowngradeAll(after, selected[..i], trial, now)
      {
        assert selected[..i + 1][..i] == selected[..i];
        var ok := ActivatePlan(selected[i], trial, None, now, 30);
        if selected[i] in subs {
          subs := subs[selected[i] := subs[selected[i]].(cancel := false)];
        }
      }
      assert selected[..|selected|] == selected;
    }
  }

  // ---- conservation ------------------------------------------------------------------------------

  function CountInvoices(invoices: seq<Invoice>, id: string): nat {
    if invoices == [] then 0
    else CountInvoices(invoices[..|invoices| - 1], id) + if invoices[|invoices| - 1].order == id then 1 else 0
  }

  /** The ledger rows that settle orders, in ledger order. */
  function OrderGrants(ledger: seq<Grant>): seq<Grant> {
    if ledger == [] then []
    else
      var before, g := OrderGrants(ledger[..|ledger| - 1]), ledger[|ledger| - 1];
      if g.order.Some? then before + [g] else before
  }

  /** One grant for each invoice that carries credits, in invoice order. */
  function InvoiceGrants(invoices: seq<Invoice>): seq<Grant> {
    if invoices == [] then []
    else
      var before, i := InvoiceGrants(invoices[..|invoices| - 1]), invoices[|invoices| - 1];
      if i.credits > 0 then before + [Grant(i.tenant, i.credits, Some(i.order))] else before
  }

  /** Every plan anything refers to still exists. */
  ghost predicate PlansExist(b: Books) {
    && (forall t :: t in b.tenants ==> b.tenants[t] in b.plans)
    && (forall t :: t in b.subs ==> b.subs[t].plan in b.plans)
    && (forall o :: o in b.orders && b.orders[o].kind.Subscription? ==> b.orders[o].kind.plan in b.plans)
  }

  /** The invoice is for this order's payer and amount, and a top-up's carries the
      credits that were bought. */
  ghost predicate InvoiceFits(orders: map<string, Order>, i: Invoice) {
    && i.order in orders && i.tenant == orders[i.order].tenant && i.amount == orders[i.order].amount
    && (orders[i.order].kind.TopUp? ==> i.credits == orders[i.order].kind.credits > 0)
  }

  ghost predicate InvoicesFit(orders: map<string, Order>, invoices: seq<Invoice>) {
    forall k :: 0 <= k < |invoices| ==> InvoiceFits(orders, invoices[k])
  }

  /** Exactly the paid orders have an invoice, and each has one. */
  ghost predicate OneInvoiceEach(orders: map<string, Order>, invoices: seq<Invoice>) {
    forall id :: CountInvoices(invoices, id) == if id in orders && orders[id].status.Paid? then 1 else 0
  }

  ghost predicate TopUpsPositive(orders: map<string, Order>) {
    forall o :: o in orders && orders[o].kind.TopUp? ==> orders[o].kind.credits > 0
  }

  /** What every run keeps, refunds included. */
  ghost predicate Booked(b: Books) {
    && PlansExist(b)
    && TopUpsPositive(b.orders)
    && InvoicesFit(b.orders, b.invoices)
    && OrderGrants(b.ledger) == InvoiceGrants(b.invoices)
  }

  ghost predicate Conserved(b: Books) {
    Booked(b) && OneInvoiceEach(b.orders, b.invoices)
  }

  lemma GrantAppends(ledger: seq<Grant>, g: Grant)
    ensures OrderGrants(ledger + [g]) == if g.order.Some? then OrderGrants(ledger) + [g] else OrderGrants(ledger)
  {
  }

  lemma InvoiceAppends(invoices: seq<Invoice>, i: Invoice)
    ensures InvoiceGrants(invoices + [i])
         == InvoiceGrants(invoices) + if i.credits > 0 then [Grant(i.tenant, i.credits, Some(i.order))] else []
    ensures forall id ::
              CountInvoices(invoices + [i], id) == CountInvoices(invoices, id) + if i.order == id then 1 else 0
  {
  }

  /** Paying settles an order with one invoice and the grant it carries. */
  lemma PayingGrants(b: Books, id: string, now: int, days: nat)
    requires id in b.orders && !b.orders[id].status.Paid? && Booked(b)
    ensures var b', o := MarkedPaid(b, id, now, days), b.orders[id];
            && b'.invoices == b.invoices + [Invoice(o.tenant, id, o.amount, GrantOf(b, o))]
            && b'.ledger == b.ledger + (if GrantOf(b, o) > 0 then [Grant(o.tenant, GrantOf(b, o), Some(id))] else [])
            && b'.orders == b.orders[id := o.(status := Paid)] && b'.plans == b.plans
  {
  }

  /** Changing an order's status, or adding one, leaves old invoices fitting. */
  lemma InvoicesStillFit(orders: map<string, Order>, invoices: seq<Invoice>, id: string, o: Order)
    requires InvoicesFit(orders, invoices)
    requires id in orders ==> o == orders[id].(status := o.status)
    ensures InvoicesFit(orders[id := o], invoices)
  {
    forall k | 0 <= k < |invoices| ensures InvoiceFits(orders[id := o], invoices[k]) {
      assert InvoiceFits(orders, invoices[k]);
    }
  }

  lemma PaidRowsMatch(b: Books, id: string, now: int, days: nat)
    requires id in b.orders && !b.orders[id].status.Paid? && Booked(b)
    ensures var b' := MarkedPaid(b, id, now, days); OrderGrants(b'.ledger) == InvoiceGrants(b'.invoices)
  {
    var o := b.orders[id];
    PayingGrants(b, id, now, days);
    InvoiceAppends(b.invoices, Invoice(o.tenant, id, o.amount, GrantOf(b, o)));
    if GrantOf(b, o) > 0 {
      GrantAppends(b.ledger, Grant(o.tenant, GrantOf(b, o), Some(id)));
    }
  }

  lemma MarkedPaidKeepsPlans(b: Books, id: string, now: int, days: nat)
    requires PlansExist(b)
    ensures PlansExist(MarkedPaid(b, id, now, days))
  {
  }

  lemma PaidInvoicesFit(b: Books, id: string)
    requires id in b.orders && Booked(b)
    ensures var o := b.orders[id];
            InvoicesFit(b.orders[id := o.(status := Paid)],
                        b.invoices + [Invoice(o.tenant, id, o.amount, GrantOf(b, o))])
  {
    InvoicesStillFit(b.orders, b.invoices, id, b.orders[id].(status := Paid));
  }

  lemma MarkedPaidBooked(b: Books, id: string, now: int, days: nat)
    requires Booked(b)
    ensures Booked(MarkedPaid(b, id, now, days))
  {
    if id in b.orders && !b.orders[id].status.Paid? {
      PayingGrants(b, id, now, days);
      PaidRowsMatch(b, id, now, days);
      PaidInvoicesFit(b, id);
      MarkedPaidKeepsPlans(b, id, now, days);
    }
  }

  /** Steps that leave orders, invoices and order grants alone. */
  ghost predicate SameOrders(b: Books, b': Books) {
    b'.orders == b.orders && b'.invoices == b.invoices && OrderGrants(b'.ledger) == OrderGrants(b.ledger)
  }

  lemma SameOrdersBooked(b: Books, b': Books)
    requires Booked(b) && SameOrders(b, b') && PlansExist(b')
    ensures Booked(b')
  {
  }

  lemma {:induction false} DowngradeAllKeeps(b: Books, selected: seq<string>, trial: string, now: int)
    requires PlansExist(b)
    ensures var b' := DowngradeAll(b, selected, trial, now);
            SameOrders(b, b') && PlansExist(b') && b'.plans == b.plans
  {
    if selected != [] {
      var before, t := DowngradeAll(b, selected[..|selected| - 1], trial, now), selected[|selected| - 1];
      DowngradeAllKeeps(b, selected[..|selected| - 1], trial, now);
      if trial in before.plans {
        GrantAppends(before.ledger, Grant(t, before.plans[trial].credits, None));
      }
    }
  }

  lemma NewOrderBooked(b: Books, id: string, o: Order)
    requires Booked(b) && id !in b.orders && o.status.Pending?
    requires match o.kind
             case TopUp(credits) => credits > 0
             case Subscription(plan) => plan in b.plans
    ensures Booked(b.(orders := b.orders[id := o]))
  {
    InvoicesStillFit(b.orders, b.invoices, id, o);
  }

  /** A changed status leaves the books in order. */
  lemma StatusBooked(b: Books, id: string, status: Status)
    requires Booked(b) && id in b.orders
    ensures Booked(b.(orders := b.orders[id := b.orders[id].(status := status)]))
  {
    InvoicesStillFit(b.orders, b.invoices, id, b.orders[id].(status := status));
  }

  lemma FailedBooked(b: Books, id: string)
    requires Booked(b)
    ensures Booked(MarkedFailed(b, id))
  {
    if id in b.orders && b.orders[id].status.Pending? {
      StatusBooked(b, id, Failed);
    }
  }

  lemma StepBooked(b: Books, e: Event, days: nat)
    requires Booked(b) && days > 0
    ensures Booked(After(b, e, days))
  {
    match e
    case CreateOrder(id, tenant, plan, now) =>
      if id !in b.orders && plan in b.plans {
        NewOrderBooked(b, id, Order(tenant, Subscription(plan), OrderAmount(b, tenant, plan, now, days), Pending));
      }
    case CreateTopUp(id, tenant, credits, perUnit) =>
      if id !in b.orders && credits > 0 {
        NewOrderBooked(b, id, Order(tenant, TopUp(credits), RoundHalfEven(credits, if perUnit < 1 then 1 else perUnit),
                                    Pending));
      }
    case Callback(_, _, _) => PayingBooked(b, e, days);
    case Webhook(_, _, _, _) => PayingBooked(b, e, days);
    case MarkPaid(_, _) => PayingBooked(b, e, days);
    case Renew(selected, trial, now) => RenewBooked(b, selected, trial, now, days);
    case Refund(id) =>
      if id in b.orders {
        StatusBooked(b, id, Refunded);
      }
    case _ => QuietStepBooked(b, e, days);
  }

  lemma DeleteKeepsPlans(b: Books, code: string, days: nat)
    requires PlansExist(b) && days > 0
    ensures PlansExist(After(b, DeletePlan(code), days))
  {
  }

  lemma QuietKeepsPlans(b: Books, e: Event, days: nat)
    requires PlansExist(b) && days > 0 && (e.PutPlan? || e.SignUp? || e.SetCancel?)
    ensures PlansExist(After(b, e, days))
  {
  }

  /** Steps that touch no order. */
  lemma QuietStepBooked(b: Books, e: Event, days: nat)
    requires Booked(b) && days > 0 && (e.PutPlan? || e.DeletePlan? || e.SignUp? || e.SetCancel?)
    ensures Booked(After(b, e, days))
  {
    if e.DeletePlan? {
      DeleteKeepsPlans(b, e.code, days);
    } else {
      QuietKeepsPlans(b, e, days);
    }
    SameOrdersBooked(b, After(b, e, days));
  }

  lemma RenewBooked(b: Books, selected: seq<string>, trial: string, now: int, days: nat)
    requires Booked(b) && days > 0
    ensures Booked(After(b, Renew(selected, trial, now), days))
  {
    DowngradeAllKeeps(MarkPastDue(b, now), selected, trial, now);
    SameOrdersBooked(b, After(b, Renew(selected, trial, now), days));
  }

  lemma PayingBooked(b: Books, e: Event, days: nat)
    requires Booked(b) && days > 0 && (e.Callback? || e.Webhook? || e.MarkPaid?)
    ensures Booked(After(b, e, days))
  {
    MarkedPaidBooked(b, e.id, e.now, days);
    FailedBooked(b, e.id);
  }

  /** Without a refund, an order becomes paid only by being settled. */
  lemma PaidAfter(b: Books, e: Event, days: nat, id: string)
    requires days > 0 && !e.Refund?
    ensures (id in After(b, e, days).orders && After(b, e, days).orders[id].status.Paid?)
       <==> (id in b.orders && b.orders[id].status.Paid?) || (Settles(b, e) && PaysFor(e).value == id)
  {
    if PaysFor(e).Some? {
      MarkedPaidInvoices(b, PaysFor(e).value, e.now, days);
    } else if e.Renew? {
      DowngradeAllInvoices(MarkPastDue(b, e.now), e.selected, e.trial, e.now);
    }
  }

  lemma InvoiceCountAfter(b: Books, e: Event, days: nat, id: string)
    requires days > 0
    ensures CountInvoices(After(b, e, days).invoices, id)
         == CountInvoices(b.invoices, id) + if Settles(b, e) && PaysFor(e).value == id then 1 else 0
  {
    InvoicesAfter(b, e, days);
    if Settles(b, e) {
      var i: Invoice :| i.order == PaysFor(e).value && After(b, e, days).invoices == b.invoices + [i];
      InvoiceAppends(b.invoices, i);
    }
  }

  lemma StepConserves(b: Books, e: Event, days: nat)
    requires Conserved(b) && days > 0 && !e.Refund?
    ensures Conserved(After(b, e, days))
  {
    var b' := After(b, e, days);
    StepBooked(b, e, days);
    forall id
      ensures CountInvoices(b'.invoices, id) == if id in b'.orders && b'.orders[id].status.Paid? then 1 else 0
    {
      PaidAfter(b, e, days, id);
      InvoiceCountAfter(b, e, days, id);
    }
  }

  ghost function Run(plans: map<string, Plan>, events: seq<Event>, days: nat): Books
    requires days > 0
  {
    if events == [] then Books(plans, map[], map[], map[], [], [])
    else After(Run(plans, events[..|events| - 1], days), events[|events| - 1], days)
  }

  /** Over any run, refunds included: the ledger's order grants are exactly the invoices'
      credits, once each and in order; invoices fit their orders; and every plan
      anything refers to still exists. */
  lemma {:induction false} BillingBooked(plans: map<string, Plan>, events: seq<Event>, days: nat)
    requires days > 0
    ensures Booked(Run(plans, events, days))
  {
    if events != [] {
      BillingBooked(plans, events[..|events| - 1], days);
      StepBooked(Run(plans, events[..|events| - 1], days), events[|events| - 1], days);
    }
  }

  /** Over any run without refunds: paid orders and invoices correspond one to one,
      with the order's payer and amount; the ledger's order grants are exactly the
      invoices' credits, once each and in order, however often payment is replayed;
      and every plan an order needs still exists. */
  lemma {:induction false} BillingConserved(plans: map<string, Plan>, events: seq<Event>, days: nat)
    requires days > 0 && forall e :: e in events ==> !e.Refund?
    ensures Conserved(Run(plans, events, days))
  {
    if events != [] {
      BillingConserved(plans, events[..|events| - 1], days);
      StepConserves(Run(plans, events[..|events| - 1], days), events[|events| - 1], days);
    }
  }

  // ---- what each payment granted -----------------------------------------------------------------

  /** Event n of the run settles the order: it carries a payment for it while the
      order is there and unpaid. */
  ghost predicate SettledAt(plans: map<string, Plan>, events: seq<Event>, days: nat, n: nat, id: string)
    requires days > 0
  {
    && n < |events| && PaysFor(events[n]) == Some(id)
    && id in Run(plans, events[..n], days).orders && !Run(plans, events[..n], days).orders[id].status.Paid?
  }

  /** Is this what the order's payer bought, by the plans of that moment? */
  ghost predicate Bought(b: Books, o: Order, credits: int) {
    match o.kind
    case TopUp(bought) => credits == bought > 0
    case Subscription(plan) => plan in b.plans && credits == Max0(b.plans[plan].credits)
  }

  /** The invoice records the settlement by event n: payer, amount, and as credits
      what was bought then. */
  ghost predicate FromPayment(plans: map<string, Plan>, events: seq<Event>, days: nat, n: nat, i: Invoice)
    requires days > 0
  {
    && SettledAt(plans, events, days, n, i.order)
    && var b := Run(plans, events[..n], days);
       var o := b.orders[i.order];
       i.tenant == o.tenant && i.amount == o.amount && Bought(b, o, i.credits)
  }

  lemma FromPaymentExtends(plans: map<string, Plan>, events: seq<Event>, days: nat, n: nat, i: Invoice)
    requires days > 0 && events != [] && FromPayment(plans, events[..|events| - 1], days, n, i)
    ensures FromPayment(plans, events, days, n, i)
  {
    assert events[..|events| - 1][..n] == events[..n];
  }

  /** The invoice a settlement issues carries what was bought. */
  lemma SettlementBuys(b: Books, id: string, now: int, days: nat)
    requires Booked(b) && id in b.orders && !b.orders[id].status.Paid?
    ensures var b' := MarkedPaid(b, id, now, days);
            && |b'.invoices| == |b.invoices| + 1 && b'.invoices[..|b.invoices|] == b.invoices
            && var i := b'.invoices[|b.invoices|];
               var o := b.orders[id];
               i.order == id && i.tenant == o.tenant && i.amount == o.amount && Bought(b, o, i.credits)
  {
    PayingGrants(b, id, now, days);
  }

  /** The invoice that the last event issues. */
  lemma LastInvoice(plans: map<string, Plan>, events: seq<Event>, days: nat)
    requires days > 0 && events != []
    requires var b := Run(plans, events[..|events| - 1], days); Booked(b) && Settles(b, events[|events| - 1])
    ensures var b, b' := Run(plans, events[..|events| - 1], days), Run(plans, events, days);
            && |b'.invoices| == |b.invoices| + 1
            && FromPayment(plans, events, days, |events| - 1, b'.invoices[|b.invoices|])
  {
    var b, e := Run(plans, events[..|events| - 1], days), events[|events| - 1];
    SettlementBuys(b, PaysFor(e).value, e.now, days);
    assert Run(plans, events, days) == MarkedPaid(b, PaysFor(e).value, e.now, days);
  }

  /** Over any run, refunds included, every invoice goes back to an event that settled
      its order, and carries the credits bought then: those of the top-up, or those
      the plan included at that moment. */
  lemma {:induction false} InvoiceFromPayment(plans: map<string, Plan>, events: seq<Event>, days: nat, k: nat)
    returns (n: nat)
    requires days > 0 && k < |Run(plans, events, days).invoices|
    ensures FromPayment(plans, events, days, n, Run(plans, events, days).invoices[k])
  {
    var init, e := events[..|events| - 1], events[|events| - 1];
    var b, b' := Run(plans, init, days), Run(plans, events, days);
    BillingBooked(plans, init, days);
    InvoicesAfter(b, e, days);
    if k < |b.invoices| {
      assert b'.invoices[k] == b.invoices[k];
      n := InvoiceFromPayment(plans, init, days, k);
      FromPaymentExtends(plans, events, days, n, b'.invoices[k]);
    } else {
      n := |init|;
      LastInvoice(plans, events, days);
    }
  }

  /** The ledger rows that grant credits for one order. */
  function GrantsFor(ledger: seq<Grant>, id: string): seq<Grant> {
    if ledger == [] then []
    else
      var before, g := GrantsFor(ledger[..|ledger| - 1], id), ledger[|ledger| - 1];
      if g.order == Some(id) then before + [g] else before
  }

  lemma {:induction false} GrantsForAreOrderGrants(ledger: seq<Grant>, id: string)
    ensures GrantsFor(OrderGrants(ledger), id) == GrantsFor(ledger, id)
  {
    if ledger != [] {
      var init, g := ledger[..|ledger| - 1], ledger[|ledger| - 1];
      GrantsForAreOrderGrants(init, id);
      if g.order.Some? {
        assert (OrderGrants(init) + [g])[..|OrderGrants(init)|] == OrderGrants(init);
      }
    }
  }

  lemma GrantsForAppends(grants: seq<Grant>, g: Grant, id: string)
    ensures GrantsFor(grants + [g], id) == GrantsFor(grants, id) + if g.order == Some(id) then [g] else []
  {
    assert (grants + [g])[..|grants|] == grants;
  }

  /** The ledger rows an invoice's credits make. */
  function RowsOf(i: Invoice): seq<Grant> {
    if i.credits > 0 then [Grant(i.tenant, i.credits, Some(i.order))] else []
  }

  lemma InvoiceRows(invoices: seq<Invoice>, i: Invoice, id: string)
    ensures GrantsFor(InvoiceGrants(invoices + [i]), id)
         == GrantsFor(InvoiceGrants(invoices), id) + if i.order == id then RowsOf(i) else []
  {
    InvoiceAppends(invoices, i);
    if i.credits > 0 {
      GrantsForAppends(InvoiceGrants(invoices), Grant(i.tenant, i.credits, Some(i.order)), id);
    }
  }

  lemma {:induction false} NoInvoiceNoRows(invoices: seq<Invoice>, id: string)
    requires CountInvoices(invoices, id) == 0
    ensures GrantsFor(InvoiceGrants(invoices), id) == []
  {
    if invoices != [] {
      var init, i := invoices[..|invoices| - 1], invoices[|invoices| - 1];
      NoInvoiceNoRows(init, id);
      InvoiceRows(init, i, id);
      assert invoices == init + [i];
    }
  }

  /** The rows that belong to the only invoice of an order: its grant, if it has one. */
  lemma {:induction false} OneInvoiceOneGrant(invoices: seq<Invoice>, id: string) returns (k: nat)
    requires CountInvoices(invoices, id) == 1
    ensures k < |invoices| && invoices[k].order == id
    ensures GrantsFor(InvoiceGrants(invoices), id) == RowsOf(invoices[k])
  {
    var init, i := invoices[..|invoices| - 1], invoices[|invoices| - 1];
    InvoiceRows(init, i, id);
    assert invoices == init + [i];
    if i.order == id {
      NoInvoiceNoRows(init, id);
      k := |init|;
    } else {
      k := OneInvoiceOneGrant(init, id);
    }
  }

  /** Over any run without refunds, a paid order was settled by an event that found
      it unpaid, and the ledger's rows for it are exactly one grant of the credits
      bought at that moment, or none if these are not positive. */
  lemma PaidOrderGrantsOnce(plans: map<string, Plan>, events: seq<Event>, days: nat, id: string)
    returns (n: nat, credits: int)
    requires days > 0 && forall e :: e in events ==> !e.Refund?
    requires id in Run(plans, events, days).orders && Run(plans, events, days).orders[id].status.Paid?
    ensures SettledAt(plans, events, days, n, id)
    ensures var b, o := Run(plans, events[..n], days), Run(plans, events[..n], days).orders[id];
            && Bought(b, o, credits)
            && GrantsFor(Run(plans, events, days).ledger, id)
               == if credits > 0 then [Grant(o.tenant, credits, Some(id))] else []
  {
    var b := Run(plans, events, days);
    BillingConserved(plans, events, days);
    assert CountInvoices(b.invoices, id) == 1;
    var k := OneInvoiceOneGrant(b.invoices, id);
    n := InvoiceFromPayment(plans, events, days, k);
    credits := b.invoices[k].credits;
    GrantsForAreOrderGrants(b.ledger, id);
  }

  /** A second payment of a paid order, by whichever route, changes nothing. */
  lemma PaymentIsIdempotent(b: Books, id: string, now: int, later: int, days: nat)
    requires id in b.orders
    ensures MarkedPaid(MarkedPaid(b, id, now, days), id, later, days) == MarkedPaid(b, id, now, days)
    ensures MarkedFailed(MarkedPaid(b, id, now, days), id) == MarkedPaid(b, id, now, days)
  {
  }

  lemma PayReopened(b: Books, id: string, now: int, days: nat)
    requires Conserved(b) && id in b.orders
    ensures var again, o := MarkedPaid(Reopened(b, id), id, now, days), b.orders[id];
            && again.invoices == b.invoices + [Invoice(o.tenant, id, o.amount, GrantOf(b, o))]
            && again.ledger == b.ledger + if GrantOf(b, o) > 0 then [Grant(o.tenant, GrantOf(b, o), Some(id))] else []
  {
  }

  lemma SecondRows(b: Books, id: string, i: Invoice, g: Grant)
    requires OneInvoiceEach(b.orders, b.invoices) && id in b.orders && b.orders[id].status.Paid? && i.order == id
    requires g.order.Some?
    ensures CountInvoices(b.invoices + [i], id) == 2
    ensures OrderGrants(b.ledger + [g]) == OrderGrants(b.ledger) + [g]
  {
    InvoiceAppends(b.invoices, i);
    GrantAppends(b.ledger, g);
  }

  /** A refund reopens the order: paying it again issues a second invoice and, when
      it carries credits, grants them a second time. */
  lemma RefundReopensOrder(b: Books, id: string, now: int, days: nat)
    requires Conserved(b) && id in b.orders && b.orders[id].status.Paid?
    ensures var o, again := b.orders[id], MarkedPaid(Reopened(b, id), id, now, days);
            && CountInvoices(again.invoices, id) == 2
            && (GrantOf(b, o) > 0
                ==> OrderGrants(again.ledger) == OrderGrants(b.ledger) + [Grant(o.tenant, GrantOf(b, o), Some(id))])
  {
    var o := b.orders[id];
    PayReopened(b, id, now, days);
    SecondRows(b, id, Invoice(o.tenant, id, o.amount, GrantOf(b, o)), Grant(o.tenant, GrantOf(b, o), Some(id)));
  }

  /** The order a call would settle, if it is one that carries a payment. */
  function PaysFor(e: Event): Option<string> {
    match e
    case Callback(id, verified, _) => if verified then Some(id) else None
    case Webhook(id, signed, paid, _) => if signed && paid then Some(id) else None
    case MarkPaid(id, _) => Some(id)
    case _ => None
  }

  /** A payment for an order that was refunded after it had been invoiced. */
  ghost predicate PaysAgain(b: Books, e: Event) {
    var id := PaysFor(e);
    id.Some? && id.value in b.orders && b.orders[id.value].status.Refunded? && CountInvoices(b.invoices, id.value) > 0
  }

  /** Invoices are for orders that are or were paid. */
  ghost predicate Accounted(b: Books) {
    forall id :: CountInvoices(b.invoices, id) > 0 ==> WasPaid(b.orders, id)
  }

  ghost predicate InvoicedOnce(b: Books) {
    forall id :: CountInvoices(b.invoices, id) <= 1
  }

  lemma {:induction false} DowngradeAllInvoices(b: Books, selected: seq<string>, trial: string, now: int)
    ensures DowngradeAll(b, selected, trial, now).invoices == b.invoices
    ensures DowngradeAll(b, selected, trial, now).orders == b.orders
  {
    if selected != [] {
      DowngradeAllInvoices(b, selected[..|selected| - 1], trial, now);
    }
  }

  lemma MarkedPaidInvoices(b: Books, id: string, now: int, days: nat)
    ensures var b' := MarkedPaid(b, id, now, days);
            if id in b.orders && !b.orders[id].status.Paid? then
              && b'.orders == b.orders[id := b.orders[id].(status := Paid)]
              && b'.invoices == b.invoices
                                + [Invoice(b.orders[id].tenant, id, b.orders[id].amount, GrantOf(b, b.orders[id]))]
            else b' == b
  {
  }

  ghost predicate Settles(b: Books, e: Event) {
    var id := PaysFor(e);
    id.Some? && id.value in b.orders && !b.orders[id.value].status.Paid?
  }

  /** Only settling an unpaid order issues an invoice, and it issues one. */
  lemma InvoicesAfter(b: Books, e: Event, days: nat)
    requires days > 0
    ensures if Settles(b, e) then
              exists i: Invoice :: i.order == PaysFor(e).value && After(b, e, days).invoices == b.invoices + [i]
            else After(b, e, days).invoices == b.invoices
  {
    var id := PaysFor(e);
    if id.Some? {
      MarkedPaidInvoices(b, id.value, e.now, days);
      if Settles(b, e) {
        var o := b.orders[id.value];
        assert After(b, e, days).invoices == b.invoices + [Invoice(o.tenant, id.value, o.amount, GrantOf(b, o))];
      }
    } else if e.Renew? {
      DowngradeAllInvoices(MarkPastDue(b, e.now), e.selected, e.trial, e.now);
    }
  }

  predicate WasPaid(orders: map<string, Order>, id: string) {
    id in orders && (orders[id].status.Paid? || orders[id].status.Refunded?)
  }

  lemma WasPaidStays(b: Books, e: Event, days: nat, id: string)
    requires days > 0 && WasPaid(b.orders, id)
    ensures WasPaid(After(b, e, days).orders, id)
  {
    if PaysFor(e).Some? {
      MarkedPaidInvoices(b, PaysFor(e).value, e.now, days);
    } else if e.Renew? {
      DowngradeAllInvoices(MarkPastDue(b, e.now), e.selected, e.trial, e.now);
    }
  }

  lemma SettledWasPaid(b: Books, e: Event, days: nat)
    requires days > 0 && Settles(b, e)
    ensures WasPaid(After(b, e, days).orders, PaysFor(e).value)
  {
    MarkedPaidInvoices(b, PaysFor(e).value, e.now, days);
  }

  lemma AccountedKept(b: Books, e: Event, days: nat)
    requires days > 0 && Accounted(b)
    ensures Accounted(After(b, e, days))
  {
    var b' := After(b, e, days);
    InvoicesAfter(b, e, days);
    forall id | CountInvoices(b'.invoices, id) > 0 ensures WasPaid(b'.orders, id) {
      if CountInvoices(b.invoices, id) > 0 {
        WasPaidStays(b, e, days, id);
      } else {
        var i: Invoice :| i.order == PaysFor(e).value && b'.invoices == b.invoices + [i];
        InvoiceAppends(b.invoices, i);
        SettledWasPaid(b, e, days);
      }
    }
  }

  lemma StepInvoicesOnceIff(b: Books, e: Event, days: nat)
    requires days > 0 && Accounted(b)
    ensures InvoicedOnce(After(b, e, days)) <==> InvoicedOnce(b) && !PaysAgain(b, e)
  {
    InvoicesAfter(b, e, days);
    if Settles(b, e) {
      var i: Invoice :| i.order == PaysFor(e).value && After(b, e, days).invoices == b.invoices + [i];
      InvoiceAppends(b.invoices, i);
      assert CountInvoices(b.invoices + [i], i.order) == CountInvoices(b.invoices, i.order) + 1;
    }
  }

  /** No event of the run pays again for a refunded order. */
  ghost predicate NoneRepaid(plans: map<string, Plan>, events: seq<Event>, days: nat)
    requires days > 0
  {
    events == [] ||
    var init := events[..|events| - 1];
    NoneRepaid(plans, init, days) && !PaysAgain(Run(plans, init, days), events[|events| - 1])
  }

  /** Over any run, refunds included, every order is invoiced at most once exactly
      when nobody pays for an order that was invoiced and then refunded. */
  lemma {:induction false} InvoicedOnceIff(plans: map<string, Plan>, events: seq<Event>, days: nat)
    requires days > 0
    ensures Accounted(Run(plans, events, days))
    ensures InvoicedOnce(Run(plans, events, days)) <==> NoneRepaid(plans, events, days)
  {
    if events != [] {
      var init, e := events[..|events| - 1], events[|events| - 1];
      InvoicedOnceIff(plans, init, days);
      AccountedKept(Run(plans, init, days), e, days);
      StepInvoicesOnceIff(Run(plans, init, days), e, days);
    }
  }

  // ---- renewals ------------------------------------------------------------------------------------

  /** The grants of a list of downgraded tenants. */
  function TrialGrants(selected: seq<string>, credits: int): seq<Grant> {
    if selected == [] || credits <= 0 then []
    else TrialGrants(selected[..|selected| - 1], credits) + [Grant(selected[|selected| - 1], credits, None)]
  }

  function DowngradedSub(s: Sub, known: bool, trial: string, now: int): Sub {
    if known then Sub(trial, Active, Some(now + 30 * DAY), false) else s.(cancel := false)
  }

  lemma DowngradeOne(b: Books, t: string, trial: string, now: int)
    requires t in b.subs
    ensures var b' := Downgraded(b, t, trial, now);
            && b'.subs == b.subs[t := DowngradedSub(b.subs[t], trial in b.plans, trial, now)] && b'.plans == b.plans
            && b'.ledger == if trial in b.plans && b.plans[trial].credits > 0
                            then b.ledger + [Grant(t, b.plans[trial].credits, None)] else b.ledger
  {
  }

  /** What downgrading a list of tenants does, tenant by tenant. */
  lemma {:induction false} DowngradeAllIs(b: Books, selected: seq<string>, trial: string, now: int)
    requires forall t :: t in selected ==> t in b.subs
    requires forall i, j :: 0 <= i < j < |selected| ==> selected[i] != selected[j]
    ensures var b' := DowngradeAll(b, selected, trial, now);
            && b'.subs.Keys == b.subs.Keys && b'.plans == b.plans
            && (forall t :: t in b.subs ==>
                  b'.subs[t]
                  == if t in selected then DowngradedSub(b.subs[t], trial in b.plans, trial, now) else b.subs[t])
            && b'.ledger == b.ledger + if trial in b.plans then TrialGrants(selected, b.plans[trial].credits) else []
  {
    if selected != [] {
      var init, t := selected[..|selected| - 1], selected[|selected| - 1];
      DowngradeAllIs(b, init, trial, now);
      DowngradeOne(DowngradeAll(b, init, trial, now), t, trial, now);
      assert forall u :: u in selected <==> u in init || u == t;
      assert t !in init;
    }
  }

  /** One run touches only expired active subscriptions: those to be cancelled get
      the trial plan for thirty days with exactly one grant each, the others go past
      due; nothing else changes. */
  lemma RenewalsSplit(b: Books, selected: seq<string>, trial: string, now: int)
    requires Selected(b, selected, now) && trial in b.plans
    ensures var b' := Renewed(b, selected, trial, now);
            && b'.subs.Keys == b.subs.Keys
            && (forall t :: t in b.subs && !Expired(b.subs[t], now) ==> b'.subs[t] == b.subs[t])
            && (forall t :: t in b.subs && Expired(b.subs[t], now) && b.subs[t].cancel ==>
                              t in selected && b'.subs[t] == Sub(trial, Active, Some(now + 30 * DAY), false))
            && (forall t :: t in b.subs && Expired(b.subs[t], now) && !b.subs[t].cancel ==>
                              t !in selected && b'.subs[t] == b.subs[t].(status := PastDue))
            && b'.tenants.Keys == b.tenants.Keys
            && (forall t :: t in b.tenants ==> b'.tenants[t] == if t in selected then trial else b.tenants[t])
            && b'.ledger == b.ledger + TrialGrants(selected, b.plans[trial].credits)
            && b'.orders == b.orders && b'.invoices == b.invoices && b'.plans == b.plans
  {
    DowngradeAllIs(MarkPastDue(b, now), selected, trial, now);
    DowngradeAllTenants(MarkPastDue(b, now), selected, trial, now);
    DowngradeAllInvoices(MarkPastDue(b, now), selected, trial, now);
  }

  lemma {:induction false} DowngradeAllTenants(b: Books, selected: seq<string>, trial: string, now: int)
    requires trial in b.plans
    ensures var b' := DowngradeAll(b, selected, trial, now);
            && b'.plans == b.plans && b'.tenants.Keys == b.tenants.Keys
            && forall t :: t in b.tenants ==> b'.tenants[t] == if t in selected then trial else b.tenants[t]
  {
    if selected != [] {
      var init, t := selected[..|selected| - 1], selected[|selected| - 1];
      DowngradeAllTenants(b, init, trial, now);
      assert forall u :: u in selected <==> u in init || u == t;
    }
  }

  ghost predicate NoneExpired(b: Books, now: int) {
    forall t :: t in b.subs ==> !Expired(b.subs[t], now)
  }

  /** A run leaves no active subscription past its period end exactly when the trial
      plan exists or no subscription was to be cancelled. Without the plan those
      only lose their cancel mark, silently, and the next run sets them past due. */
  lemma RenewalsCompleteIff(b: Books, selected: seq<string>, trial: string, now: int)
    requires Selected(b, selected, now)
    ensures NoneExpired(Renewed(b, selected, trial, now), now) <==> trial in b.plans || selected == []
    ensures trial !in b.plans ==>
              var subs := Renewed(b, selected, trial, now).subs;
              forall t :: t in selected ==> t in b.subs && t in subs && subs[t] == b.subs[t].(cancel := false)
  {
    DowngradeAllIs(MarkPastDue(b, now), selected, trial, now);
    if trial !in b.plans && selected != [] {
      assert selected[0] in selected;
      assert Expired(Renewed(b, selected, trial, now).subs[selected[0]], now);
    }
  }

  /** A second run at the same instant finds nothing to cancel, and changes nothing
      exactly when the trial plan exists or nothing was to be cancelled at first:
      without the plan it sets past due those that lost their cancel mark. */
  lemma RenewalsSettleIff(b: Books, selected: seq<string>, again: seq<string>, trial: string, now: int)
    requires Selected(b, selected, now)
    requires Selected(Renewed(b, selected, trial, now), again, now)
    ensures again == []
    ensures Renewed(Renewed(b, selected, trial, now), again, trial, now) == Renewed(b, selected, trial, now)
       <==> trial in b.plans || selected == []
  {
    var b' := Renewed(b, selected, trial, now);
    RenewalsCompleteIff(b, selected, trial, now);
    RenewalsCancelNone(b, selected, trial, now);
    SomeMember(again);
    assert again == [];
    if NoneExpired(b', now) {
      assert MarkPastDue(b', now).subs == b'.subs;
    } else {
      var t :| t in b'.subs && Expired(b'.subs[t], now);
      assert MarkPastDue(b', now).subs[t].status.PastDue?;
    }
  }

  /** No expired subscription keeps its cancel mark. */
  lemma RenewalsCancelNone(b: Books, selected: seq<string>, trial: string, now: int)
    requires Selected(b, selected, now)
    ensures var b' := Renewed(b, selected, trial, now);
            forall t :: t in b'.subs && Expired(b'.subs[t], now) ==> !b'.subs[t].cancel
  {
    DowngradeAllIs(MarkPastDue(b, now), selected, trial, now);
  }

  lemma SomeMember(s: seq<string>)
    ensures s == [] || exists t :: t in s
  {
    if s != [] {
      assert s[0] in s;
    }
  }
}
