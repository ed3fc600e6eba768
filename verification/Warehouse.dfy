/** The generated demo warehouse: an even spread of conversions over page views,
    and orders and payments that agree with each other. */
module Warehouse {

  // ------------------------------------------------------------ spreading

  /** Spreads `converted` signups evenly across `total` views. */
  predicate Converts(index: nat, total: nat, converted: int)
    requires total > 0
  {
    converted > 0 && (index * converted) % total < converted
  }

  /** How many of the first `k` indices convert. */
  function Converting(k: nat, total: nat, converted: int): nat
    requires k > 0 ==> total > 0
  {
    if k == 0 then 0
    else Converting(k - 1, total, converted) + if Converts(k - 1, total, converted) then 1 else 0
  }

  /** Adding at most one period advances the quotient exactly when the remainder wraps. */
  lemma {:induction false} QuotientStep(x: nat, c: nat, t: nat)
    requires 0 < c <= t
    ensures (x + c) / t == x / t + if (x + c) % t < c then 1 else 0
  {
    var q, r := x / t, x % t;
    assert x == q * t + r;
    if r + c < t {
      DivUnique(x + c, t, q, r + c);
    } else {
      assert x + c == (q + 1) * t + (r + c - t);
      DivUnique(x + c, t, q + 1, r + c - t);
    }
  }

  lemma {:induction false} MulAtLeast(d: int, t: int)
    requires d >= 1 && t > 0
    ensures d * t >= t
  {
    assert (d - 1) * t >= 0;
    assert d * t == (d - 1) * t + t;
  }

  lemma {:induction false} DivUnique(x: int, t: int, q: int, r: int)
    requires 0 <= r < t && x == q * t + r
    ensures x / t == q && x % t == r
  {
    var q', r' := x / t, x % t;
    assert x == q' * t + r';
    assert (q - q') * t == q * t - q' * t == r' - r;
    assert (q' - q) * t == q' * t - q * t == r - r';
    if q > q' {
      MulAtLeast(q - q', t);
    } else if q < q' {
      MulAtLeast(q' - q, t);
    }
  }

  /** The exact count in every prefix. */
  lemma {:induction false} PrefixCount(k: nat, total: nat, converted: nat)
    requires 0 < converted <= total && k >= 1
    ensures Converting(k, total, converted) == ((k - 1) * converted) / total + 1
    decreases k
  {
    if k == 1 {
      assert Converting(0, total, converted) == 0;
      assert (0 * converted) % total == 0;
    } else {
      PrefixCount(k - 1, total, converted);
      var x := (k - 2) * converted;
      assert (k - 1) * converted == x + converted;
      QuotientStep(x, converted, total);
    }
  }

  /** Every prefix is within one of its ideal share `k * converted / total`. */
  lemma {:induction false} PrefixShare(k: nat, total: nat, converted: nat)
    requires 0 < converted <= total && k >= 1
    ensures k * converted - converted < Converting(k, total, converted) * total <= k * converted + total - converted
  {
    PrefixCount(k, total, converted);
    var x := (k - 1) * converted;
    assert x == k * converted - converted;
    QuotientBounds(x, total);
  }

  lemma {:induction false} QuotientBounds(x: nat, t: nat)
    requires t > 0
    ensures x < (x / t + 1) * t <= x + t
  {
    var q := x / t;
    assert x == q * t + x % t;
    assert (q + 1) * t == q * t + t;
  }

  /** The signups of a cohort. */
  function Signups(total: nat, converted: int): nat {
    if converted <= 0 then 0 else if converted <= total then converted else total
  }

  /** A whole cohort yields exactly the conversions asked for, as far as there are views. */
  lemma {:induction false} CohortCount(total: nat, converted: int)
    ensures Converting(total, total, converted) == Signups(total, converted)
  {
    if total == 0 {
    } else if converted <= 0 {
      NoneConvert(total, total, converted);
    } else if converted <= total {
      PrefixCount(total, total, converted);
      assert (total - 1) * converted == (converted - 1) * total + (total - converted);
      DivUnique((total - 1) * converted, total, converted - 1, total - converted);
    } else {
      AllConvert(total, total, converted);
    }
  }

  lemma {:induction false} NoneConvert(k: nat, total: nat, converted: int)
    requires total > 0 && converted <= 0
    ensures Converting(k, total, converted) == 0
    decreases k
  {
    if k > 0 { NoneConvert(k - 1, total, converted); }
  }

  lemma {:induction false} AllConvert(k: nat, total: nat, converted: int)
    requires 0 < total < converted
    ensures Converting(k, total, converted) == k
    decreases k
  {
    if k > 0 { AllConvert(k - 1, total, converted); }
  }

  // ------------------------------------------------------------ views and signups

  datatype Timestamp = Timestamp(day: int, hour: nat, minute: nat, second: nat)

  datatype Cohort = Cohort(platform: string, version: string, views: nat, converted: int)

  datatype Day = Day(date: int, cohorts: seq<Cohort>)

  datatype View = View(id: nat, at: Timestamp, platform: string, version: string, country: string)

  datatype Signup = Signup(id: nat, at: Timestamp, platform: string, version: string, country: string)

  const COUNTRIES: seq<string> := ["US", "DE", "JP", "BR"]

  function StampAt(day: int, index: nat, offset: nat): Timestamp {
    var minuteOfDay := (index * 7 + offset) % 660;
    Timestamp(day, 8 + minuteOfDay / 60, minuteOfDay % 60, (index * 13) % 60)
  }

  function CohortSignups(cohorts: seq<Cohort>): nat {
    if cohorts == [] then 0
    else CohortSignups(cohorts[..|cohorts| - 1]) + Signups(cohorts[|cohorts| - 1].views, cohorts[|cohorts| - 1].converted)
  }

  function CohortViews(cohorts: seq<Cohort>): nat {
    if cohorts == [] then 0 else CohortViews(cohorts[..|cohorts| - 1]) + cohorts[|cohorts| - 1].views
  }

  function TotalSignups(days: seq<Day>): nat {
    if days == [] then 0 else TotalSignups(days[..|days| - 1]) + CohortSignups(days[|days| - 1].cohorts)
  }

  function TotalViews(days: seq<Day>): nat {
    if days == [] then 0 else TotalViews(days[..|days| - 1]) + CohortViews(days[|days| - 1].cohorts)
  }

  predicate ViewsNumbered(views: seq<View>) {
    forall i :: 0 <= i < |views| ==> views[i].id == i + 1 && views[i].country == COUNTRIES[(i + 1) % 4]
  }

  predicate SignupsNumbered(signups: seq<Signup>) {
    forall i :: 0 <= i < |signups| ==> signups[i].id == i + 1
  }

  /** A signup carries the platform, version, country and day of a view. */
  predicate ComesFrom(s: Signup, v: View) {
    s.platform == v.platform && s.version == v.version && s.country == v.country && s.at.day == v.at.day
  }

  predicate HasSource(s: Signup, views: seq<View>) {
    exists i :: 0 <= i < |views| && ComesFrom(s, views[i])
  }

  predicate Sourced(signups: seq<Signup>, views: seq<View>) {
    forall j :: 0 <= j < |signups| ==> HasSource(signups[j], views)
  }

  lemma {:induction false} SourcedMore(signups: seq<Signup>, views: seq<View>, v: View)
    requires Sourced(signups, views)
    ensures Sourced(signups, views + [v])
  {
    forall j | 0 <= j < |signups| ensures HasSource(signups[j], views + [v]) {
      assert HasSource(signups[j], views);
      var i :| 0 <= i < |views| && ComesFrom(signups[j], views[i]);
      assert ComesFrom(signups[j], (views + [v])[i]);
    }
  }

  lemma {:induction false} SourcedOne(signups: seq<Signup>, views: seq<View>, s: Signup)
    requires Sourced(signups, views) && views != [] && ComesFrom(s, views[|views| - 1])
    ensures Sourced(signups + [s], views)
  {
    assert HasSource(s, views);
  }

  /** The views and signups of one cohort on one day, appended to what is there. */
  method AddCohort(date: int, c: Cohort, views0: seq<View>, signups0: seq<Signup>)
    returns (views: seq<View>, signups: seq<Signup>)
    requires ViewsNumbered(views0) && SignupsNumbered(signups0) && Sourced(signups0, views0)
    ensures ViewsNumbered(views) && SignupsNumbered(signups) && Sourced(signups, views)
    ensures views0 <= views && |views| == |views0| + c.views
    ensures signups0 <= signups && |signups| == |signups0| + Signups(c.views, c.converted)
    ensures ViewedUpTo(views, |views0|, date, c, c.views)
    ensures SignedUpTo(signups, |signups0|, |views0|, date, c, c.views)
  {
    views, signups := views0, signups0;
    for index := 0 to c.views
      invariant ViewsNumbered(views) && SignupsNumbered(signups) && Sourced(signups, views)
      invariant views0 <= views && |views| == |views0| + index
      invariant signups0 <= signups && |signups| == |signups0| + Converting(index, c.views, c.converted)
      invariant ViewedUpTo(views, |views0|, date, c, index)
      invariant SignedUpTo(signups, |signups0|, |views0|, date, c, index)
    {
      var viewId := |views| + 1;
      var country := COUNTRIES[viewId % |COUNTRIES|];
      var view := View(viewId, StampAt(date, index, 0), c.platform, c.version, country);
      SourcedMore(signups, views, view);
      ViewedNext(views, |views0|, date, c, index, view);
      views := views + [view];
      if Converts(index, c.views, c.converted) {
        var signup := Signup(|signups| + 1, StampAt(date, index, 4), c.platform, c.version, country);
        SourcedOne(signups, views, signup);
        SignedNext(signups, |signups0|, |views0|, date, c, index, signup);
        signups := signups + [signup];
      }
    }
    CohortCount(c.views, c.converted);
  }

  /** The view with index `index` of a cohort that starts behind `base` rows. */
  function ViewOf(base: nat, date: int, c: Cohort, index: nat): View {
    View(base + index + 1, StampAt(date, index, 0), c.platform, c.version, COUNTRIES[(base + index + 1) % 4])
  }

  /** The rows behind `base` are the cohort's first `n` views. */
  ghost predicate ViewedUpTo(views: seq<View>, base: nat, date: int, c: Cohort, n: nat) {
    base + n <= |views| && forall index :: 0 <= index < n ==> views[base + index] == ViewOf(base, date, c, index)
  }

  /** The signup of a converting view: same country, four minutes later, and numbered by how
      many converted before it. */
  function SignupOf(base: nat, viewBase: nat, date: int, c: Cohort, index: nat): Signup
    requires c.views > 0
  {
    Signup(base + Converting(index, c.views, c.converted) + 1, StampAt(date, index, 4), c.platform, c.version,
           COUNTRIES[(viewBase + index + 1) % 4])
  }

  ghost predicate SignedAt(signups: seq<Signup>, base: nat, viewBase: nat, date: int, c: Cohort, index: nat)
    requires c.views > 0
  {
    var p := base + Converting(index, c.views, c.converted);
    p < |signups| && signups[p] == SignupOf(base, viewBase, date, c, index)
  }

  /** Each of the cohort's first `n` views that converts has its signup. */
  ghost predicate SignedUpTo(signups: seq<Signup>, base: nat, viewBase: nat, date: int, c: Cohort, n: nat) {
    forall index :: 0 <= index < n <= c.views && Converts(index, c.views, c.converted) ==>
      SignedAt(signups, base, viewBase, date, c, index)
  }

  lemma {:induction false} ViewedNext(views: seq<View>, base: nat, date: int, c: Cohort, n: nat, view: View)
    requires ViewedUpTo(views, base, date, c, n) && |views| == base + n && view == ViewOf(base, date, c, n)
    ensures ViewedUpTo(views + [view], base, date, c, n + 1)
  {
  }

  lemma {:induction false} SignedNext(signups: seq<Signup>, base: nat, viewBase: nat, date: int, c: Cohort, n: nat, signup: Signup)
    requires SignedUpTo(signups, base, viewBase, date, c, n) && n < c.views
    requires |signups| == base + Converting(n, c.views, c.converted) && signup == SignupOf(base, viewBase, date, c, n)
    ensures SignedUpTo(signups + [signup], base, viewBase, date, c, n + 1)
  {
    forall index | 0 <= index < n + 1 && Converts(index, c.views, c.converted)
      ensures SignedAt(signups + [signup], base, viewBase, date, c, index)
    {
      if index < n { assert SignedAt(signups, base, viewBase, date, c, index); }
    }
  }

  /** Countries rotate over the views, from the second one on. */
  lemma {:induction false} CountriesRotate(views: seq<View>, i: nat)
    requires ViewsNumbered(views) && i < |views|
    ensures i < 4 ==> views[i].country == ["DE", "JP", "BR", "US"][i]
    ensures i + 4 < |views| ==> views[i + 4].country == views[i].country
  {
    assert (i + 5) % 4 == (i + 1) % 4;
  }

  /** A time stamp lies in the eleven hours behind eight o'clock, seven minutes further for each index. */
  lemma {:induction false} StampIs(day: int, index: nat, offset: nat)
    ensures var t := StampAt(day, index, offset);
            && t.day == day && 8 <= t.hour < 19 && t.minute < 60 && t.second < 60
            && (t.hour - 8) * 60 + t.minute == (7 * index + offset) % 660
  {
    HourAndMinute((index * 7 + offset) % 660);
  }

  lemma {:induction false} HourAndMinute(m: nat)
    requires m < 660
    ensures m / 60 < 11 && m % 60 < 60 && (m / 60) * 60 + m % 60 == m
  {
  }

  /** Every row of the first two tables, for any calendar of cohorts. */
  method BuildViewsAndSignups(days: seq<Day>) returns (views: seq<View>, signups: seq<Signup>)
    ensures ViewsNumbered(views) && SignupsNumbered(signups) && Sourced(signups, views)
    ensures |views| == TotalViews(days) && |signups| == TotalSignups(days)
  {
    views, signups := [], [];
    for d := 0 to |days|
      invariant ViewsNumbered(views) && SignupsNumbered(signups) && Sourced(signups, views)
      invariant |views| == TotalViews(days[..d]) && |signups| == TotalSignups(days[..d])
    {
      var day := days[d];
      for k := 0 to |day.cohorts|
        invariant ViewsNumbered(views) && SignupsNumbered(signups) && Sourced(signups, views)
        invariant |views| == TotalViews(days[..d]) + CohortViews(day.cohorts[..k])
        invariant |signups| == TotalSignups(days[..d]) + CohortSignups(day.cohorts[..k])
      {
        views, signups := AddCohort(day.date, day.cohorts[k], views, signups);
        assert day.cohorts[..k + 1][..k] == day.cohorts[..k];
      }
      assert day.cohorts[..|day.cohorts|] == day.cohorts;
      assert days[..d + 1][..d] == days[..d];
    }
    assert days[..|days|] == days;
  }

  // ------------------------------------------------------------ orders and payments

  datatype OrderStatus = Paid | Cancelled | Refunded

  datatype Order = Order(id: nat, user: nat, at: Timestamp, amount: nat, status: OrderStatus)

  datatype PaymentStatus = FailedPayment | Succeeded | RefundedPayment

  datatype Payment = Payment(id: nat, order: nat, at: Timestamp, amount: nat, status: PaymentStatus)

  const ORDER_AMOUNTS_CENTS: seq<nat> := [1990, 4900, 12900, 2500, 7900]

  function StatusOf(id: nat): OrderStatus {
    if id % 17 == 0 then Cancelled else if id % 11 == 0 then Refunded else Paid
  }

  function AmountOf(id: nat): nat {
    ORDER_AMOUNTS_CENTS[id % 5]
  }

  function OrderCount(index: nat): nat {
    (if index % 2 == 0 then 1 else 0) + (if index % 5 == 0 then 1 else 0)
  }

  function Shift(at: Timestamp, days: nat): Timestamp {
    at.(day := at.day + days)
  }

  function MakeOrder(id: nat, s: Signup, repeat: nat): Order {
    Order(id, s.id, Shift(s.at, repeat + 1), AmountOf(id), StatusOf(id))
  }

  /** The payments of one order, numbered from `id`. */
  function PaymentsOf(o: Order, id: nat): seq<Payment> {
    if o.status == Cancelled then []
    else
      var final := if o.status == Refunded then RefundedPayment else Succeeded;
      if o.id % 13 == 0 then
        [Payment(id, o.id, o.at, o.amount, FailedPayment), Payment(id + 1, o.id, o.at, o.amount, final)]
      else [Payment(id, o.id, o.at, o.amount, final)]
  }

  /** The payments of all orders, in order. */
  function AllPayments(orders: seq<Order>): seq<Payment> {
    if orders == [] then []
    else
      var before := AllPayments(orders[..|orders| - 1]);
      before + PaymentsOf(orders[|orders| - 1], |before| + 1)
  }

  function OrderTotal(signups: nat): nat {
    if signups == 0 then 0 else OrderTotal(signups - 1) + OrderCount(signups - 1)
  }

  /** Every second signup orders once, every fifth once more. */
  lemma {:induction false} OrderTotalIs(n: nat)
    ensures OrderTotal(n) == (n + 1) / 2 + (n + 4) / 5
    decreases n
  {
    if n > 0 { OrderTotalIs(n - 1); }
  }

  /** Numbered from 1, with the amount and status of its number, for an existing user. */
  predicate OrderConsistent(o: Order, id: nat, users: nat) {
    o.id == id && o.amount == AmountOf(id) && o.status == StatusOf(id) && 1 <= o.user <= users
  }

  predicate OrdersConsistent(orders: seq<Order>, signups: seq<Signup>) {
    forall i :: 0 <= i < |orders| ==> OrderConsistent(orders[i], i + 1, |signups|)
  }

  /** The payment rows of one order: none, one, or a failed attempt and its retry. */
  method Pay(order: Order, payments0: seq<Payment>) returns (payments: seq<Payment>)
    ensures payments == payments0 + PaymentsOf(order, |payments0| + 1)
  {
    payments := payments0;
    if order.status == Cancelled {
      return;
    }
    if order.id % 13 == 0 {
      payments := payments + [Payment(|payments| + 1, order.id, order.at, order.amount, FailedPayment)];
    }
    payments := payments + [Payment(|payments| + 1, order.id, order.at, order.amount,
                                    if order.status == Refunded then RefundedPayment else Succeeded)];
  }

  lemma {:induction false} PaymentsSnoc(orders: seq<Order>, o: Order)
    ensures AllPayments(orders + [o]) == AllPayments(orders) + PaymentsOf(o, |AllPayments(orders)| + 1)
  {
    assert (orders + [o])[..|orders|] == orders;
  }

  lemma {:induction false} OneMoreOrder(orders: seq<Order>, signups: seq<Signup>, index: nat, repeat: nat)
    requires OrdersConsistent(orders, signups) && SignupsNumbered(signups) && index < |signups|
    ensures OrdersConsistent(orders + [MakeOrder(|orders| + 1, signups[index], repeat)], signups)
  {
  }

  /** The orders of one signup, with their payments. */
  method AddOrders(signups: seq<Signup>, index: nat, orders0: seq<Order>, payments0: seq<Payment>)
    returns (orders: seq<Order>, payments: seq<Payment>)
    requires SignupsNumbered(signups) && index < |signups|
    requires OrdersConsistent(orders0, signups) && payments0 == AllPayments(orders0)
    ensures OrdersConsistent(orders, signups) && payments == AllPayments(orders)
    ensures orders == orders0 + OrdersOf(signups[index], index, |orders0|)
  {
    orders, payments := orders0, payments0;
    AddingStart(signups, index, orders0);
    for repeat := 0 to OrderCount(index)
      invariant Adding(signups, index, orders0, repeat, orders) && payments == AllPayments(orders)
    {
      var order := MakeOrder(|orders| + 1, signups[index], repeat);
      payments := Pay(order, payments);
      AddingNext(signups, index, orders0, repeat, orders, order);
      orders := orders + [order];
    }
    AddingDone(signups, index, orders0, orders);
  }

  /** The first `repeat` orders of the signup stand behind `orders0`. */
  ghost predicate Adding(signups: seq<Signup>, index: nat, orders0: seq<Order>, repeat: nat, orders: seq<Order>) {
    && index < |signups| && OrdersConsistent(orders, signups) && repeat <= OrderCount(index)
    && orders == orders0 + OrdersOf(signups[index], index, |orders0|)[..repeat]
  }

  lemma {:induction false} AddingStart(signups: seq<Signup>, index: nat, orders0: seq<Order>)
    requires index < |signups| && OrdersConsistent(orders0, signups)
    ensures Adding(signups, index, orders0, 0, orders0)
  {
    assert orders0 + OrdersOf(signups[index], index, |orders0|)[..0] == orders0;
  }

  lemma {:induction false} AddingDone(signups: seq<Signup>, index: nat, orders0: seq<Order>, orders: seq<Order>)
    requires Adding(signups, index, orders0, OrderCount(index), orders)
    ensures orders == orders0 + OrdersOf(signups[index], index, |orders0|) && OrdersConsistent(orders, signups)
  {
    var own := OrdersOf(signups[index], index, |orders0|);
    assert own[..|own|] == own;
  }

  lemma {:induction false} AddingNext(signups: seq<Signup>, index: nat, orders0: seq<Order>, repeat: nat,
                                      orders: seq<Order>, order: Order)
    requires Adding(signups, index, orders0, repeat, orders) && SignupsNumbered(signups) && repeat < OrderCount(index)
    requires order == MakeOrder(|orders| + 1, signups[index], repeat)
    ensures Adding(signups, index, orders0, repeat + 1, orders + [order])
    ensures AllPayments(orders + [order]) == AllPayments(orders) + PaymentsOf(order, |AllPayments(orders)| + 1)
  {
    OrderStep(signups, index, orders0, OrdersOf(signups[index], index, |orders0|), repeat, orders, order);
  }

  /** What one more order of a signup keeps. */
  lemma {:induction false} OrderStep(signups: seq<Signup>, index: nat, orders0: seq<Order>, own: seq<Order>, repeat: nat,
                                     orders: seq<Order>, order: Order)
    requires OrdersConsistent(orders, signups) && SignupsNumbered(signups) && index < |signups|
    requires own == OrdersOf(signups[index], index, |orders0|) && repeat < |own| && orders == orders0 + own[..repeat]
    requires order == MakeOrder(|orders| + 1, signups[index], repeat)
    ensures OrdersConsistent(orders + [order], signups) && orders + [order] == orders0 + own[..repeat + 1]
    ensures AllPayments(orders + [order]) == AllPayments(orders) + PaymentsOf(order, |AllPayments(orders)| + 1)
  {
    PaymentsSnoc(orders, order);
    OneMoreOrder(orders, signups, index, repeat);
    OrdersOfAt(signups[index], index, |orders0|, repeat);
    NextOf(orders0, own, repeat, orders, order);
  }

  lemma {:induction false} OrdersOfAt(s: Signup, index: nat, from: nat, repeat: nat)
    requires repeat < OrderCount(index)
    ensures OrdersOf(s, index, from)[repeat] == MakeOrder(from + repeat + 1, s, repeat)
  {
  }

  lemma {:induction false} NextOf(orders0: seq<Order>, own: seq<Order>, repeat: nat, orders: seq<Order>, order: Order)
    requires repeat < |own| && orders == orders0 + own[..repeat] && order == own[repeat]
    ensures orders + [order] == orders0 + own[..repeat + 1]
  {
    assert own[..repeat + 1] == own[..repeat] + [own[repeat]];
  }

  /** The orders of one signup, numbered behind `from`. */
  function OrdersOf(s: Signup, index: nat, from: nat): (orders: seq<Order>)
    ensures |orders| == OrderCount(index)
  {
    [MakeOrder(from + 1, s, 0), MakeOrder(from + 2, s, 1)][..OrderCount(index)]
  }

  function AllOrders(signups: seq<Signup>): seq<Order> {
    if signups == [] then []
    else
      var before := AllOrders(signups[..|signups| - 1]);
      before + OrdersOf(signups[|signups| - 1], |signups| - 1, |before|)
  }

  method BuildOrdersAndPayments(signups: seq<Signup>) returns (orders: seq<Order>, payments: seq<Payment>)
    requires SignupsNumbered(signups)
    ensures OrdersConsistent(orders, signups) && |orders| == OrderTotal(|signups|)
    ensures orders == AllOrders(signups) && payments == AllPayments(orders)
  {
    orders, payments := [], [];
    for index := 0 to |signups|
      invariant OrdersConsistent(orders, signups) && Built(signups, index, orders)
      invariant payments == AllPayments(orders)
    {
      ghost var before := orders;
      orders, payments := AddOrders(signups, index, orders, payments);
      BuiltNext(signups, index, before, orders);
    }
    assert signups[..|signups|] == signups;
  }

  /** The orders of the first `n` signups. */
  ghost predicate Built(signups: seq<Signup>, n: nat, orders: seq<Order>) {
    n <= |signups| && orders == AllOrders(signups[..n]) && |orders| == OrderTotal(n)
  }

  lemma {:induction false} BuiltNext(signups: seq<Signup>, n: nat, before: seq<Order>, orders: seq<Order>)
    requires Built(signups, n, before) && n < |signups| && orders == before + OrdersOf(signups[n], n, |before|)
    ensures Built(signups, n + 1, orders)
  {
    var upto := signups[..n + 1];
    assert upto[..|upto| - 1] == signups[..n] && upto[|upto| - 1] == signups[n];
  }

  // ------------------------------------------------------------ who orders, when and what

  /** The orders of one user, in order. */
  function OrdersBy(orders: seq<Order>, user: nat): seq<Order> {
    if orders == [] then []
    else OrdersBy(orders[..|orders| - 1], user) + if orders[|orders| - 1].user == user then [orders[|orders| - 1]] else []
  }

  lemma {:induction false} OrdersBySnoc(orders: seq<Order>, o: Order, user: nat)
    ensures OrdersBy(orders + [o], user) == OrdersBy(orders, user) + if o.user == user then [o] else []
  {
    assert (orders + [o])[..|orders|] == orders;
  }

  lemma {:induction false} OrdersByConcat(a: seq<Order>, b: seq<Order>, user: nat)
    ensures OrdersBy(a + b, user) == OrdersBy(a, user) + OrdersBy(b, user)
    decreases |b|
  {
    if b == [] {
      assert a + b == a;
    } else {
      var before, last := b[..|b| - 1], b[|b| - 1];
      OrdersByConcat(a, before, user);
      OrdersBySnoc(a + before, last, user);
      OrdersBySnoc(before, last, user);
      assert a + b == a + before + [last] && b == before + [last];
    }
  }

  lemma {:induction false} OrdersByAll(orders: seq<Order>, user: nat)
    requires forall i :: 0 <= i < |orders| ==> orders[i].user == user
    ensures OrdersBy(orders, user) == orders
    decreases |orders|
  {
    if orders != [] { OrdersByAll(orders[..|orders| - 1], user); }
  }

  lemma {:induction false} OrdersByNone(orders: seq<Order>, user: nat)
    requires forall i :: 0 <= i < |orders| ==> orders[i].user != user
    ensures OrdersBy(orders, user) == []
    decreases |orders|
  {
    if orders != [] { OrdersByNone(orders[..|orders| - 1], user); }
  }

  /** Orders of the signup: one for every second signup, one more for every fifth, a day apart
      and behind it. */
  predicate OrderedAsDue(orders: seq<Order>, s: Signup) {
    && |orders| == (if s.id % 2 == 1 then 1 else 0) + (if s.id % 5 == 1 then 1 else 0)
    && forall k :: 0 <= k < |orders| ==>
         orders[k].user == s.id && orders[k].at == s.at.(day := s.at.day + k + 1)
  }

  lemma {:induction false} EverySecond(x: nat)
    ensures x % 2 == 0 <==> (x + 1) % 2 == 1
  {
  }

  lemma {:induction false} EveryFifth(x: nat)
    ensures x % 5 == 0 <==> (x + 1) % 5 == 1
  {
    var q, r := x / 5, x % 5;
    assert x == 5 * q + r;
    if r < 4 {
      DivUnique(x + 1, 5, q, r + 1);
    } else {
      DivUnique(x + 1, 5, q + 1, 0);
    }
  }

  lemma {:induction false} DueCount(index: nat)
    ensures OrderCount(index) == (if (index + 1) % 2 == 1 then 1 else 0) + (if (index + 1) % 5 == 1 then 1 else 0)
  {
    EverySecond(index);
    EveryFifth(index);
  }

  lemma {:induction false} OwnTerms(s: Signup, index: nat, from: nat, k: nat)
    requires k < |OrdersOf(s, index, from)|
    ensures var o := OrdersOf(s, index, from)[k];
            o.user == s.id && o.at == s.at.(day := s.at.day + k + 1)
  {
    OrdersOfAt(s, index, from, k);
  }

  lemma {:induction false} OwnOrders(s: Signup, index: nat, from: nat, own: seq<Order>)
    requires s.id == index + 1 && own == OrdersOf(s, index, from)
    ensures OrderedAsDue(own, s)
  {
    DueCount(index);
    forall k | 0 <= k < |own| ensures own[k].user == s.id && own[k].at == s.at.(day := s.at.day + k + 1) {
      OwnTerms(s, index, from, k);
    }
  }

  lemma {:induction false} NotYetOrdered(signups: seq<Signup>, user: nat)
    requires SignupsNumbered(signups) && user > |signups|
    ensures OrdersBy(AllOrders(signups), user) == []
    decreases |signups|
  {
    if signups != [] {
      var before, last := signups[..|signups| - 1], signups[|signups| - 1];
      var orders := AllOrders(before);
      var own := OrdersOf(last, |before|, |orders|);
      AllOrdersLast(signups, before, last);
      NotYetOrdered(before, user);
      OwnOrders(last, |before|, |orders|, own);
      OrdersByNone(own, user);
      OrdersByConcat(orders, own, user);
    }
  }

  /** Every user has exactly the orders that are due. */
  lemma {:induction false} UserOrders(signups: seq<Signup>, k: nat)
    requires SignupsNumbered(signups) && k < |signups|
    ensures OrdersDue(AllOrders(signups), k + 1, signups[k])
    decreases |signups|
  {
    var before, last := signups[..|signups| - 1], signups[|signups| - 1];
    var orders := AllOrders(before);
    var own := OrdersOf(last, |before|, |orders|);
    AllOrdersLast(signups, before, last);
    NotYetOrdered(before, |signups|);
    OwnOrders(last, |before|, |orders|, own);
    if k < |before| {
      UserOrders(before, k);
    }
    UserOrdersStep(before, last, signups, orders, own, AllOrders(signups), k);
  }

  predicate OrdersDue(orders: seq<Order>, user: nat, s: Signup) {
    OrderedAsDue(OrdersBy(orders, user), s)
  }

  lemma {:induction false} AllOrdersLast(signups: seq<Signup>, before: seq<Signup>, last: Signup)
    requires SignupsNumbered(signups) && signups != []
    requires before == signups[..|signups| - 1] && last == signups[|signups| - 1]
    ensures signups == before + [last] && SignupsNumbered(before) && last.id == |signups|
    ensures AllOrders(signups) == AllOrders(before) + OrdersOf(last, |before|, |AllOrders(before)|)
  {
  }

  lemma {:induction false} UserOrdersStep(before: seq<Signup>, last: Signup, signups: seq<Signup>,
                                          orders: seq<Order>, own: seq<Order>, all: seq<Order>, k: nat)
    requires signups == before + [last] && last.id == |signups| && k < |signups|
    requires all == orders + own && OrdersBy(orders, |signups|) == [] && OrderedAsDue(own, last)
    requires k < |before| ==> OrdersDue(orders, k + 1, before[k])
    ensures OrdersDue(all, k + 1, signups[k])
  {
    OrdersByConcat(orders, own, k + 1);
    if k == |before| {
      OrdersByAll(own, k + 1);
      assert [] + own == own;
    } else {
      OrdersByNone(own, k + 1);
    }
  }

  /** Every seventeenth order is cancelled, every eleventh of the others refunded, and the
      amounts repeat after five. */
  lemma {:induction false} OrderTerms(k: nat, id: nat)
    ensures StatusOf(17 * k) == Cancelled
    ensures id % 17 != 0 ==> StatusOf(id) == (if id % 11 == 0 then Refunded else Paid)
    ensures StatusOf(id) == Cancelled ==> id % 17 == 0
    ensures AmountOf(id + 5) == AmountOf(id)
    ensures AmountOf(5) == 1990 && AmountOf(1) == 4900 && AmountOf(2) == 12900 && AmountOf(3) == 2500 && AmountOf(4) == 7900
  {
    assert (id + 5) % 5 == id % 5;
  }

  // ------------------------------------------------------------ what the tables keep

  /** Payments are numbered from 1, and each pays its own amount to an existing,
      uncancelled order. */
  lemma {:induction false} PaymentsResolve(orders: seq<Order>)
    requires forall i :: 0 <= i < |orders| ==> orders[i].id == i + 1
    ensures forall i :: 0 <= i < |AllPayments(orders)| ==>
              var p := AllPayments(orders)[i];
              && p.id == i + 1 && 1 <= p.order <= |orders|
              && p.amount == orders[p.order - 1].amount && orders[p.order - 1].status != Cancelled
    decreases |orders|
  {
    if orders != [] {
      var n := |orders| - 1;
      PaymentsResolve(orders[..n]);
      var before := AllPayments(orders[..n]);
      forall i | 0 <= i < |AllPayments(orders)|
        ensures var p := AllPayments(orders)[i];
                && p.id == i + 1 && 1 <= p.order <= |orders|
                && p.amount == orders[p.order - 1].amount && orders[p.order - 1].status != Cancelled
      {
        if i < |before| { assert AllPayments(orders)[i] == before[i]; }
      }
    }
  }

  /** The payments of order `id` that did not fail. */
  function Settling(payments: seq<Payment>, id: nat): seq<Payment> {
    if payments == [] then []
    else
      var p := payments[|payments| - 1];
      Settling(payments[..|payments| - 1], id) + if p.order == id && p.status != FailedPayment then [p] else []
  }

  lemma {:induction false} SettlingConcat(a: seq<Payment>, b: seq<Payment>, id: nat)
    ensures Settling(a + b, id) == Settling(a, id) + Settling(b, id)
    decreases |b|
  {
    if b == [] {
      assert a + b == a;
    } else {
      SettlingConcat(a, b[..|b| - 1], id);
      assert (a + b)[..|a + b| - 1] == a + b[..|b| - 1];
    }
  }

  lemma {:induction false} SettlingNone(payments: seq<Payment>, id: nat)
    requires forall i :: 0 <= i < |payments| ==> payments[i].order != id
    ensures Settling(payments, id) == []
    decreases |payments|
  {
    if payments != [] { SettlingNone(payments[..|payments| - 1], id); }
  }

  lemma {:induction false} SettlingOfOne(o: Order, from: nat)
    ensures |Settling(PaymentsOf(o, from), o.id)| == if o.status == Cancelled then 0 else 1
    ensures forall p :: p in Settling(PaymentsOf(o, from), o.id) ==>
              p.amount == o.amount && (p.status == RefundedPayment <==> o.status == Refunded)
    ensures forall id :: id != o.id ==> Settling(PaymentsOf(o, from), id) == []
  {
    var ps := PaymentsOf(o, from);
    forall id | id != o.id ensures Settling(ps, id) == [] { SettlingNone(ps, id); }
    if |ps| == 1 {
      assert ps[..0] == [];
    } else if |ps| == 2 {
      assert ps[..1][..0] == [];
      assert Settling(ps[..1], o.id) == Settling([], o.id) + [];
    }
  }

  /** A cancelled order has no payment that went through; any other has exactly
      one, of its own amount, refunded exactly when the order is. */
  lemma {:induction false} OneSettlingPayment(orders: seq<Order>, k: nat)
    requires FromOne(orders) && k < |orders|
    ensures PaidFor(AllPayments(orders), k + 1, orders[k])
    decreases |orders|
  {
    var before, last := orders[..|orders| - 1], orders[|orders| - 1];
    FromOnePrefix(orders, before, last);
    if k < |before| {
      OneSettlingPayment(before, k);
    }
    PaidLast(orders, before, last, k);
  }

  /** Orders are numbered from one. */
  predicate FromOne(orders: seq<Order>) {
    forall i :: 0 <= i < |orders| ==> orders[i].id == i + 1
  }

  lemma {:induction false} FromOnePrefix(orders: seq<Order>, before: seq<Order>, last: Order)
    requires FromOne(orders) && orders != [] && before == orders[..|orders| - 1] && last == orders[|orders| - 1]
    ensures FromOne(before) && last.id == |orders| && |before| == |orders| - 1 && orders == before + [last]
    ensures forall i :: 0 <= i < |before| ==> before[i] == orders[i]
  {
  }

  lemma {:induction false} PaidLast(orders: seq<Order>, before: seq<Order>, last: Order, k: nat)
    requires FromOne(before) && orders == before + [last] && last.id == |orders| && k < |orders|
    requires k < |before| ==> PaidFor(AllPayments(before), k + 1, before[k])
    ensures PaidFor(AllPayments(orders), k + 1, orders[k])
  {
    NotYetPaid(before, |orders|);
    PaymentsSnoc(before, last);
    PaidStep(before, last, orders, AllPayments(before), AllPayments(orders), k);
  }

  lemma {:induction false} PaidStep(before: seq<Order>, last: Order, orders: seq<Order>, paid: seq<Payment>, all: seq<Payment>, k: nat)
    requires orders == before + [last] && last.id == |orders| && k < |orders|
    requires all == paid + PaymentsOf(last, |paid| + 1) && Unpaid(paid, |orders|)
    requires k < |before| ==> PaidFor(paid, k + 1, before[k])
    ensures PaidFor(all, k + 1, orders[k])
  {
    var own := PaymentsOf(last, |paid| + 1);
    if k == |before| {
      PaidByItself(last, |paid| + 1);
      PaidBehind(paid, own, all, k + 1, last);
    } else {
      PaidByNoOther(last, |paid| + 1, k + 1);
      PaidInFront(paid, own, all, k + 1, before[k]);
    }
  }

  lemma {:induction false} PaymentsLast(orders: seq<Order>, before: seq<Order>, last: Order)
    requires orders != [] && before == orders[..|orders| - 1] && last == orders[|orders| - 1]
    ensures orders == before + [last]
    ensures AllPayments(orders) == AllPayments(before) + PaymentsOf(last, |AllPayments(before)| + 1)
  {
  }

  lemma {:induction false} NotYetPaid(orders: seq<Order>, id: nat)
    requires FromOne(orders) && id > |orders|
    ensures Unpaid(AllPayments(orders), id)
  {
    PaymentsResolve(orders);
    SettlingNone(AllPayments(orders), id);
  }

  lemma {:induction false} PaidByItself(o: Order, from: nat)
    ensures PaidFor(PaymentsOf(o, from), o.id, o)
  {
    SettlingOfOne(o, from);
  }

  lemma {:induction false} PaidByNoOther(o: Order, from: nat, id: nat)
    requires id != o.id
    ensures Unpaid(PaymentsOf(o, from), id)
  {
    SettlingOfOne(o, from);
  }

  /** The payments settle the order: none if it is cancelled, otherwise one of its amount,
      refunded exactly when the order is. */
  predicate PaidOnce(ps: seq<Payment>, o: Order) {
    && |ps| == (if o.status == Cancelled then 0 else 1)
    && forall p :: p in ps ==> p.amount == o.amount && (p.status == RefundedPayment <==> o.status == Refunded)
  }

  /** Of all payments exactly those that settle the order `id` do so for `o`. */
  predicate PaidFor(payments: seq<Payment>, id: nat, o: Order) {
    PaidOnce(Settling(payments, id), o)
  }

  predicate Unpaid(payments: seq<Payment>, id: nat) {
    Settling(payments, id) == []
  }

  lemma {:induction false} PaidBehind(a: seq<Payment>, b: seq<Payment>, all: seq<Payment>, id: nat, o: Order)
    requires all == a + b && Unpaid(a, id) && PaidFor(b, id, o)
    ensures PaidFor(all, id, o)
  {
    SettlingConcat(a, b, id);
  }

  lemma {:induction false} PaidInFront(a: seq<Payment>, b: seq<Payment>, all: seq<Payment>, id: nat, o: Order)
    requires all == a + b && PaidFor(a, id, o) && Unpaid(b, id)
    ensures PaidFor(all, id, o)
  {
    SettlingConcat(a, b, id);
  }

  function OrderSum(orders: seq<Order>, status: OrderStatus): nat {
    if orders == [] then 0
    else OrderSum(orders[..|orders| - 1], status)
         + if orders[|orders| - 1].status == status then orders[|orders| - 1].amount else 0
  }

  function PaymentSum(payments: seq<Payment>, status: PaymentStatus): nat {
    if payments == [] then 0
    else PaymentSum(payments[..|payments| - 1], status)
         + if payments[|payments| - 1].status == status then payments[|payments| - 1].amount else 0
  }

  lemma {:induction false} PaymentSumConcat(a: seq<Payment>, b: seq<Payment>, status: PaymentStatus)
    ensures PaymentSum(a + b, status) == PaymentSum(a, status) + PaymentSum(b, status)
    decreases |b|
  {
    if b == [] {
      assert a + b == a;
    } else {
      PaymentSumConcat(a, b[..|b| - 1], status);
      assert (a + b)[..|a + b| - 1] == a + b[..|b| - 1];
    }
  }

  lemma {:induction false} PaymentSumOne(o: Order, from: nat)
    ensures PaymentSum(PaymentsOf(o, from), Succeeded) == if o.status == Paid then o.amount else 0
    ensures PaymentSum(PaymentsOf(o, from), RefundedPayment) == if o.status == Refunded then o.amount else 0
  {
    var ps := PaymentsOf(o, from);
    if |ps| == 1 {
      assert ps[..0] == [];
    } else if |ps| == 2 {
      assert ps[..1][..0] == [];
      assert PaymentSum(ps[..1], Succeeded) == 0 && PaymentSum(ps[..1], RefundedPayment) == 0;
    }
  }

  /** Money is conserved between the two tables. */
  lemma {:induction false} MoneyAgrees(orders: seq<Order>)
    ensures Balances(orders, AllPayments(orders))
    decreases |orders|
  {
    if orders != [] {
      var before, last := orders[..|orders| - 1], orders[|orders| - 1];
      MoneyAgrees(before);
      PaymentsLast(orders, before, last);
      BalancesLast(before, last, orders, AllPayments(before), AllPayments(orders));
    }
  }

  /** Succeeded payments sum to paid orders, refunded ones to refunded orders. */
  predicate Balances(orders: seq<Order>, payments: seq<Payment>) {
    && PaymentSum(payments, Succeeded) == OrderSum(orders, Paid)
    && PaymentSum(payments, RefundedPayment) == OrderSum(orders, Refunded)
  }

  lemma {:induction false} OrderSumSnoc(orders: seq<Order>, o: Order, status: OrderStatus)
    ensures OrderSum(orders + [o], status) == OrderSum(orders, status) + if o.status == status then o.amount else 0
  {
    assert (orders + [o])[..|orders|] == orders;
  }

  lemma {:induction false} BalancesLast(before: seq<Order>, last: Order, orders: seq<Order>, paid: seq<Payment>, all: seq<Payment>)
    requires orders == before + [last] && all == paid + PaymentsOf(last, |paid| + 1) && Balances(before, paid)
    ensures Balances(orders, all)
  {
    OrderSumSnoc(before, last, Paid);
    OrderSumSnoc(before, last, Refunded);
    MoneyOfLast(paid, last);
  }

  lemma {:induction false} MoneyOfLast(paid: seq<Payment>, o: Order)
    ensures var all := paid + PaymentsOf(o, |paid| + 1);
            && PaymentSum(all, Succeeded) == PaymentSum(paid, Succeeded) + (if o.status == Paid then o.amount else 0)
            && PaymentSum(all, RefundedPayment) == PaymentSum(paid, RefundedPayment) + if o.status == Refunded then o.amount else 0
  {
    var own := PaymentsOf(o, |paid| + 1);
    PaymentSumConcat(paid, own, Succeeded);
    PaymentSumConcat(paid, own, RefundedPayment);
    PaymentSumOne(o, |paid| + 1);
  }

  /** The whole seed, with the consistency of its four tables. */
  method BuildSeed(days: seq<Day>)
    returns (views: seq<View>, signups: seq<Signup>, orders: seq<Order>, payments: seq<Payment>)
    ensures ViewsNumbered(views) && SignupsNumbered(signups) && Sourced(signups, views)
    ensures |views| == TotalViews(days) && |signups| == TotalSignups(days)
    ensures OrdersConsistent(orders, signups) && |orders| == (|signups| + 1) / 2 + (|signups| + 4) / 5
    ensures forall i :: 0 <= i < |payments| ==>
              && payments[i].id == i + 1 && 1 <= payments[i].order <= |orders|
              && payments[i].amount == orders[payments[i].order - 1].amount
              && orders[payments[i].order - 1].status != Cancelled
    ensures PaymentSum(payments, Succeeded) == OrderSum(orders, Paid)
    ensures PaymentSum(payments, RefundedPayment) == OrderSum(orders, Refunded)
    ensures forall k :: 0 <= k < |orders| ==>
              |Settling(payments, k + 1)| == (if orders[k].status == Cancelled then 0 else 1)
    ensures forall k :: 0 <= k < |signups| ==> OrdersDue(orders, k + 1, signups[k])
  {
    views, signups := BuildViewsAndSignups(days);
    orders, payments := BuildOrdersAndPayments(signups);
    OrderTotalIs(|signups|);
    PaymentsResolve(orders);
    MoneyAgrees(orders);
    forall k | 0 <= k < |orders|
      ensures |Settling(payments, k + 1)| == (if orders[k].status == Cancelled then 0 else 1)
    {
      OneSettlingPayment(orders, k);
    }
    forall k | 0 <= k < |signups| ensures OrdersDue(orders, k + 1, signups[k]) {
      UserOrders(signups, k);
    }
  }
}
