/** Refunds against orders: what may be refunded is what has not moved yet. Amounts are
    floating-point numbers, so besides whole cents there are infinities and a value that
    is not a number, with which every comparison is false. */
module RefundDesk {
  import opened Outcome
  import opened Text

  datatype OrderRecord = OrderRecord(ref: string, currency: string, total: int)

  datatype Money = Nan | PlusInfinity | MinusInfinity | Cents(cents: int)

  datatype RefundStatus = NoRefund | Requested | Approved | Issued | SettledRefund | FailedRefund

  datatype Refund = Refund(ref: string, requestedAt: int, status: RefundStatus, amount: Money)

  datatype RefundError =
    | MissingRef
    | UnknownOrder
    | AmountNotANumber
    | AmountTooLarge
    | AmountNotPositive
    | WrongCurrency
    | MissingReason
    | NothingOutstanding
    | ExceedsOutstanding

  /** An argument of the wrong type, an integer beyond the floating-point range, or a number. */
  datatype Amount = NotANumber | TooLarge | Number(value: Money)

  /** A call of `issue_refund`: the amount rounded to cents, the currency stripped and upper-cased. */
  datatype Call = Call(orderRef: string, amount: Amount, currency: string, reason: string, at: int)

  type Book = map<string, seq<Refund>>

  datatype Catalogue = Catalogue(orders: seq<OrderRecord>, seeded: Book)

  // ------------------------------------------------------------ specification

  const ZERO := Cents(0)

  function Add(a: Money, b: Money): Money {
    if a.Nan? || b.Nan? then Nan
    else if a.Cents? && b.Cents? then Cents(a.cents + b.cents)
    else if a.Cents? then b
    else if b.Cents? || a == b then a
    else Nan
  }

  function Minus(a: Money, b: Money): Money {
    match b
    case Nan => Nan
    case PlusInfinity => Add(a, MinusInfinity)
    case MinusInfinity => Add(a, PlusInfinity)
    case Cents(c) => Add(a, Cents(-c))
  }

  predicate AtMost(a: Money, b: Money) {
    !a.Nan? && !b.Nan? && (a.MinusInfinity? || b.PlusInfinity? || (a.Cents? && b.Cents? && a.cents <= b.cents))
  }

  predicate Exceeds(a: Money, b: Money) {
    !a.Nan? && !b.Nan? && !AtMost(a, b)
  }

  function FindOrder(orders: seq<OrderRecord>, ref: string): (r: Option<OrderRecord>)
    ensures r.Some? ==> r.value in orders && r.value.ref == ref
    ensures r.None? ==> forall i :: 0 <= i < |orders| ==> orders[i].ref != ref
  {
    if orders == [] then None else if orders[0].ref == ref then Some(orders[0]) else FindOrder(orders[1..], ref)
  }

  function Entries(book: Book, ref: string): seq<Refund> {
    if ref in book then book[ref] else []
  }

  function Place(x: Refund, sorted: seq<Refund>): seq<Refund> {
    if sorted == [] then [x]
    else if sorted[|sorted| - 1].requestedAt <= x.requestedAt then sorted + [x]
    else Place(x, sorted[..|sorted| - 1]) + [sorted[|sorted| - 1]]
  }

  /** Oldest first; refunds requested at the same time keep their order. */
  function Oldest(refunds: seq<Refund>): seq<Refund> {
    if refunds == [] then [] else Place(refunds[|refunds| - 1], Oldest(refunds[..|refunds| - 1]))
  }

  function FindRefunds(cat: Catalogue, issued: Book, ref: string): seq<Refund> {
    Oldest(Entries(cat.seeded, ref) + Entries(issued, ref))
  }

  function Moved(x: Refund): Money {
    if x.status.Issued? || x.status.SettledRefund? then x.amount else ZERO
  }

  function MovedSum(refunds: seq<Refund>): Money {
    if refunds == [] then ZERO else Add(MovedSum(refunds[..|refunds| - 1]), Moved(refunds[|refunds| - 1]))
  }

  function Outstanding(cat: Catalogue, issued: Book, order: OrderRecord): Money {
    Minus(Cents(order.total), MovedSum(FindRefunds(cat, issued, order.ref)))
  }

  function Digit(d: nat): char
    requires d < 10
  {
    "0123456789"[d]
  }

  function Numeral(n: nat): string {
    if n < 10 then [Digit(n)] else Numeral(n / 10) + [Digit(n % 10)]
  }

  /** The text behind the last dash. */
  function Suffix(ref: string): string {
    if ref == "" || ref[|ref| - 1] == '-' then "" else Suffix(ref[..|ref| - 1]) + [ref[|ref| - 1]]
  }

  function RefundRef(orderRef: string, n: nat): string {
    "REF-" + Suffix(orderRef) + "-" + Numeral(n)
  }

  function Issuing(cat: Catalogue, issued: Book, call: Call): Result<(OrderRecord, Refund), RefundError> {
    var ref := Trim(call.orderRef);
    if ref == "" then Err(MissingRef)
    else if FindOrder(cat.orders, ref).None? then Err(UnknownOrder)
    else
      var order := FindOrder(cat.orders, ref).value;
      if call.amount.NotANumber? then Err(AmountNotANumber)
      else if call.amount.TooLarge? then Err(AmountTooLarge)
      else if AtMost(call.amount.value, ZERO) then Err(AmountNotPositive)
      else if call.currency != order.currency then Err(WrongCurrency)
      else if Trim(call.reason) == "" then Err(MissingReason)
      else if AtMost(Outstanding(cat, issued, order), ZERO) then Err(NothingOutstanding)
      else if Exceeds(call.amount.value, Outstanding(cat, issued, order)) then Err(ExceedsOutstanding)
      else Ok((order, Refund(RefundRef(ref, |Entries(issued, ref)| + 1), call.at, Issued, call.amount.value)))
  }

  function Append(issued: Book, ref: string, refund: Refund): Book {
    issued[ref := Entries(issued, ref) + [refund]]
  }

  function Apply(issued: Book, result: Result<(OrderRecord, Refund), RefundError>): Book {
    match result
    case Err(_) => issued
    case Ok((order, refund)) => Append(issued, order.ref, refund)
  }

  function Issue(cat: Catalogue, issued: Book, call: Call): Book {
    Apply(issued, Issuing(cat, issued, call))
  }

  function IssueAll(cat: Catalogue, issued: Book, calls: seq<Call>): Book
    decreases calls
  {
    if calls == [] then issued else IssueAll(cat, Issue(cat, issued, calls[0]), calls[1..])
  }

  // ------------------------------------------------------------ the object

  class Desk {
    const cat: Catalogue
    var issued: Book

    constructor (cat: Catalogue)
      ensures this.cat == cat && issued == map[]
    {
      this.cat := cat;
      issued := map[];
    }

    /** Refuses, or records the refund and returns its receipt. */
    method RecordIssuedRefund(call: Call) returns (r: Result<Refund, RefundError>)
      modifies this
      ensures issued == Issue(cat, old(issued), call)
      ensures match Issuing(cat, old(issued), call)
              case Err(e) => r == Err(e)
              case Ok((_, refund)) => r == Ok(refund)
    {
      var ref := Trim(call.orderRef);
      if ref == "" {
        return Err(MissingRef);
      }
      var found := FindOrder(cat.orders, ref);
      if found.None? {
        return Err(UnknownOrder);
      }
      var order := found.value;
      if call.amount.NotANumber? {
        return Err(AmountNotANumber);
      }
      if call.amount.TooLarge? {
        return Err(AmountTooLarge);
      }
      var value := call.amount.value;
      if AtMost(value, ZERO) {
        return Err(AmountNotPositive);
      }
      if call.currency != order.currency {
        return Err(WrongCurrency);
      }
      if Trim(call.reason) == "" {
        return Err(MissingReason);
      }
      var outstanding := Outstanding(cat, issued, order);
      if AtMost(outstanding, ZERO) {
        return Err(NothingOutstanding);
      }
      if Exceeds(value, outstanding) {
        return Err(ExceedsOutstanding);
      }
      var entries := Entries(issued, order.ref);
      var refund := Refund(RefundRef(order.ref, |entries| + 1), call.at, Issued, value);
      issued := issued[order.ref := entries + [refund]];
      r := Ok(refund);
    }
  }

  // ------------------------------------------------------------ what every history keeps

  lemma {:induction false} AddSwap(a: Money, b: Money, c: Money)
    ensures Add(Add(a, b), c) == Add(Add(a, c), b)
  {
  }

  lemma {:induction false} MinusBoth(t: int, a: Money, b: Money)
    ensures Minus(Cents(t), Add(a, b)) == Minus(Minus(Cents(t), a), b)
  {
  }

  /** What has moved in `longer` is what has moved in `refunds` and `x`. */
  predicate MovesMore(longer: seq<Refund>, refunds: seq<Refund>, x: Refund) {
    MovedSum(longer) == Add(MovedSum(refunds), Moved(x))
  }

  lemma {:induction false} MovedSnoc(refunds: seq<Refund>, x: Refund)
    ensures MovesMore(refunds + [x], refunds, x)
  {
    assert (refunds + [x])[..|refunds|] == refunds;
  }

  lemma {:induction false} MovesBefore(longer: seq<Refund>, refunds: seq<Refund>, x: Refund, y: Refund)
    requires MovesMore(longer, refunds, x)
    ensures MovesMore(longer + [y], refunds + [y], x)
  {
    MovedSnoc(longer, y);
    MovedSnoc(refunds, y);
    AddSwap(MovedSum(refunds), Moved(x), Moved(y));
  }

  /** A refund goes to the end of a list that has nothing later. */
  lemma {:induction false} PlaceLast(x: Refund, sorted: seq<Refund>)
    requires sorted == [] || sorted[|sorted| - 1].requestedAt <= x.requestedAt
    ensures Place(x, sorted) == sorted + [x]
  {
  }

  /** It goes somewhere in front of a last one that is later. */
  lemma {:induction false} PlaceBefore(x: Refund, before: seq<Refund>, last: Refund, sorted: seq<Refund>)
    requires sorted == before + [last] && last.requestedAt > x.requestedAt
    ensures Place(x, sorted) == Place(x, before) + [last]
  {
    assert sorted[..|sorted| - 1] == before;
  }

  lemma {:induction false} PlaceMoves(x: Refund, sorted: seq<Refund>)
    ensures MovesMore(Place(x, sorted), sorted, x)
    decreases |sorted|
  {
    if sorted == [] || sorted[|sorted| - 1].requestedAt <= x.requestedAt {
      PlaceLast(x, sorted);
      MovedSnoc(sorted, x);
    } else {
      var before, last := sorted[..|sorted| - 1], sorted[|sorted| - 1];
      assert sorted == before + [last];
      PlaceMoves(x, before);
      PlaceBefore(x, before, last, sorted);
      MovesBefore(Place(x, before), before, x, last);
    }
  }

  lemma {:induction false} PlaceAdds(x: Refund, sorted: seq<Refund>)
    ensures multiset(Place(x, sorted)) == multiset(sorted) + multiset{x}
    decreases |sorted|
  {
    if sorted == [] || sorted[|sorted| - 1].requestedAt <= x.requestedAt {
      PlaceLast(x, sorted);
    } else {
      var before, last := sorted[..|sorted| - 1], sorted[|sorted| - 1];
      assert sorted == before + [last];
      PlaceAdds(x, before);
      PlaceBefore(x, before, last, sorted);
    }
  }

  /** Sorting loses no refund and adds none. */
  lemma {:induction false} OldestKeeps(refunds: seq<Refund>)
    ensures multiset(Oldest(refunds)) == multiset(refunds)
    decreases |refunds|
  {
    if refunds != [] {
      var n := |refunds| - 1;
      assert multiset(refunds) == multiset(refunds[..n]) + multiset{refunds[n]} by {
        assert refunds == refunds[..n] + [refunds[n]];
      }
      OldestKeeps(refunds[..n]);
      PlaceAdds(refunds[n], Oldest(refunds[..n]));
    }
  }

  /** On an order exactly its seeded and its issued refunds are found. */
  lemma {:induction false} FindsAll(cat: Catalogue, issued: Book, ref: string)
    ensures multiset(FindRefunds(cat, issued, ref)) == multiset(Entries(cat.seeded, ref)) + multiset(Entries(issued, ref))
  {
    OldestKeeps(Entries(cat.seeded, ref) + Entries(issued, ref));
  }

  predicate UpTo(refunds: seq<Refund>, t: int) {
    forall i :: 0 <= i < |refunds| ==> refunds[i].requestedAt <= t
  }

  predicate Ascending(refunds: seq<Refund>) {
    refunds != [] ==>
      && Ascending(refunds[..|refunds| - 1])
      && UpTo(refunds, refunds[|refunds| - 1].requestedAt)
  }

  /** The refunds requested at one time, in the order they stand. */
  function At(refunds: seq<Refund>, t: int): seq<Refund> {
    if refunds == [] then []
    else if refunds[|refunds| - 1].requestedAt == t then At(refunds[..|refunds| - 1], t) + [refunds[|refunds| - 1]]
    else At(refunds[..|refunds| - 1], t)
  }

  lemma {:induction false} AtSnoc(refunds: seq<Refund>, x: Refund, t: int)
    ensures x.requestedAt == t ==> At(refunds + [x], t) == At(refunds, t) + [x]
    ensures x.requestedAt != t ==> At(refunds + [x], t) == At(refunds, t)
  {
    assert (refunds + [x])[..|refunds|] == refunds;
  }

  lemma {:induction false} AscendingSnoc(refunds: seq<Refund>, x: Refund)
    requires Ascending(refunds) && UpTo(refunds, x.requestedAt)
    ensures Ascending(refunds + [x])
  {
    assert (refunds + [x])[..|refunds|] == refunds;
  }

  lemma {:induction false} PlaceUpTo(x: Refund, sorted: seq<Refund>, t: int)
    requires UpTo(sorted, t) && x.requestedAt <= t
    ensures UpTo(Place(x, sorted), t)
    decreases |sorted|
  {
    if sorted != [] { PlaceUpTo(x, sorted[..|sorted| - 1], t); }
  }

  lemma {:induction false} PlaceAscends(x: Refund, sorted: seq<Refund>)
    requires Ascending(sorted)
    ensures Ascending(Place(x, sorted))
    decreases |sorted|
  {
    if sorted == [] || sorted[|sorted| - 1].requestedAt <= x.requestedAt {
      PlaceLast(x, sorted);
      AscendingSnoc(sorted, x);
    } else {
      var before, last := sorted[..|sorted| - 1], sorted[|sorted| - 1];
      assert sorted == before + [last];
      PlaceAscends(x, before);
      PlaceUpTo(x, before, last.requestedAt);
      PlaceBefore(x, before, last, sorted);
      AscendingSnoc(Place(x, before), last);
    }
  }

  /** `longer` has `x` behind everything of `refunds` that was requested at `t`. */
  predicate Joins(longer: seq<Refund>, refunds: seq<Refund>, x: Refund, t: int) {
    At(longer, t) == if x.requestedAt == t then At(refunds, t) + [x] else At(refunds, t)
  }

  lemma {:induction false} JoinsLast(refunds: seq<Refund>, x: Refund, t: int)
    ensures Joins(refunds + [x], refunds, x, t)
  {
    AtSnoc(refunds, x, t);
  }

  lemma {:induction false} JoinsBefore(longer: seq<Refund>, refunds: seq<Refund>, x: Refund, y: Refund, t: int)
    requires Joins(longer, refunds, x, t) && x.requestedAt != y.requestedAt
    ensures Joins(longer + [y], refunds + [y], x, t)
  {
    AtSnoc(longer, y, t);
    AtSnoc(refunds, y, t);
  }

  lemma {:induction false} PlaceStable(x: Refund, sorted: seq<Refund>, t: int)
    ensures Joins(Place(x, sorted), sorted, x, t)
    decreases |sorted|
  {
    if sorted == [] || sorted[|sorted| - 1].requestedAt <= x.requestedAt {
      PlaceLast(x, sorted);
      JoinsLast(sorted, x, t);
    } else {
      var before, last := sorted[..|sorted| - 1], sorted[|sorted| - 1];
      assert sorted == before + [last];
      PlaceStable(x, before, t);
      PlaceBefore(x, before, last, sorted);
      JoinsBefore(Place(x, before), before, x, last, t);
    }
  }

  /** Refunds come oldest first, and those requested at one time keep their order. */
  lemma {:induction false} OldestFirst(refunds: seq<Refund>, t: int)
    ensures Ascending(Oldest(refunds)) && At(Oldest(refunds), t) == At(refunds, t)
    decreases |refunds|
  {
    if refunds != [] {
      var n := |refunds| - 1;
      OldestFirst(refunds[..n], t);
      PlaceAscends(refunds[n], Oldest(refunds[..n]));
      PlaceStable(refunds[n], Oldest(refunds[..n]), t);
    }
  }

  /** What a refund that is issued has to be; the comparisons do not hold of what is not a number. */
  ghost predicate Acceptable(cat: Catalogue, issued: Book, order: OrderRecord, refund: Refund) {
    && FindOrder(cat.orders, order.ref) == Some(order)
    && refund.status.Issued?
    && !AtMost(refund.amount, ZERO) && !AtMost(Outstanding(cat, issued, order), ZERO)
    && !Exceeds(refund.amount, Outstanding(cat, issued, order))
    && refund.ref == RefundRef(order.ref, |Entries(issued, order.ref)| + 1)
  }

  /** The call names a known order in its currency and states a reason. */
  predicate Addressed(cat: Catalogue, call: Call) {
    var found := FindOrder(cat.orders, Trim(call.orderRef));
    Trim(call.orderRef) != "" && found.Some? && call.currency == found.value.currency && Trim(call.reason) != ""
  }

  function OrderOf(cat: Catalogue, call: Call): OrderRecord
    requires Addressed(cat, call)
  {
    FindOrder(cat.orders, Trim(call.orderRef)).value
  }

  /** A call is accepted exactly when nothing about it is found to be wrong. */
  lemma {:induction false} AcceptedIff(cat: Catalogue, issued: Book, call: Call)
    ensures Issuing(cat, issued, call).Ok? <==>
              && Addressed(cat, call) && call.amount.Number? && !AtMost(call.amount.value, ZERO)
              && !AtMost(Outstanding(cat, issued, OrderOf(cat, call)), ZERO)
              && !Exceeds(call.amount.value, Outstanding(cat, issued, OrderOf(cat, call)))
    ensures Issuing(cat, issued, call).Ok? ==>
              var (order, refund) := Issuing(cat, issued, call).value;
              && order == OrderOf(cat, call) && Acceptable(cat, issued, order, refund)
              && order.ref == Trim(call.orderRef) && refund.amount == call.amount.value
  {
  }

  lemma {:induction false} AppendPlaces(cat: Catalogue, issued: Book, ref: string, refund: Refund)
    ensures FindRefunds(cat, Append(issued, ref, refund), ref) == Place(refund, FindRefunds(cat, issued, ref))
  {
    var before := Entries(cat.seeded, ref) + Entries(issued, ref);
    var all := before + [refund];
    assert Entries(cat.seeded, ref) + Entries(Append(issued, ref, refund), ref) == all;
    assert all[..|all| - 1] == before && all[|all| - 1] == refund;
  }

  lemma {:induction false} AppendFound(cat: Catalogue, issued: Book, ref: string, refund: Refund)
    ensures multiset(FindRefunds(cat, Append(issued, ref, refund), ref))
         == multiset(FindRefunds(cat, issued, ref)) + multiset{refund}
    ensures MovedSum(FindRefunds(cat, Append(issued, ref, refund), ref))
         == Add(MovedSum(FindRefunds(cat, issued, ref)), Moved(refund))
  {
    AppendPlaces(cat, issued, ref, refund);
    PlaceAdds(refund, FindRefunds(cat, issued, ref));
    PlaceMoves(refund, FindRefunds(cat, issued, ref));
  }

  lemma {:induction false} AppendElsewhere(cat: Catalogue, issued: Book, ref: string, refund: Refund, other: string)
    requires other != ref
    ensures FindRefunds(cat, Append(issued, ref, refund), other) == FindRefunds(cat, issued, other)
  {
    assert Entries(Append(issued, ref, refund), other) == Entries(issued, other);
  }

  lemma {:induction false} AppendLowers(cat: Catalogue, issued: Book, order: OrderRecord, refund: Refund)
    ensures Outstanding(cat, Append(issued, order.ref, refund), order)
         == Minus(Outstanding(cat, issued, order), Moved(refund))
  {
    AppendFound(cat, issued, order.ref, refund);
    MinusBoth(order.total, MovedSum(FindRefunds(cat, issued, order.ref)), Moved(refund));
  }

  /** A refused call changes nothing.  An accepted one lowers what is outstanding on its order
      by exactly its amount, and its refund joins those found on that order. */
  lemma {:induction false} IssueEffect(cat: Catalogue, issued: Book, call: Call)
    ensures Issuing(cat, issued, call).Err? ==> Issue(cat, issued, call) == issued
    ensures Issuing(cat, issued, call).Ok? ==>
              var (order, refund) := Issuing(cat, issued, call).value;
              var after := Issue(cat, issued, call);
              && Outstanding(cat, after, order) == Minus(Outstanding(cat, issued, order), call.amount.value)
              && multiset(FindRefunds(cat, after, order.ref))
              == multiset(FindRefunds(cat, issued, order.ref)) + multiset{refund}
  {
    var result := Issuing(cat, issued, call);
    if result.Ok? {
      AcceptedIff(cat, issued, call);
      AppendFound(cat, issued, result.value.0.ref, result.value.1);
      AppendLowers(cat, issued, result.value.0, result.value.1);
    }
  }

  /** A call on one order leaves every other order as it was. */
  lemma {:induction false} OthersUntouched(cat: Catalogue, issued: Book, call: Call, other: OrderRecord)
    requires other.ref != Trim(call.orderRef)
    ensures FindRefunds(cat, Issue(cat, issued, call), other.ref) == FindRefunds(cat, issued, other.ref)
    ensures Outstanding(cat, Issue(cat, issued, call), other) == Outstanding(cat, issued, other)
  {
    var result := Issuing(cat, issued, call);
    if result.Ok? {
      AcceptedIff(cat, issued, call);
      AppendElsewhere(cat, issued, result.value.0.ref, result.value.1, other.ref);
    }
  }

  predicate NotNegative(m: Money) {
    m.Cents? && m.cents >= 0
  }

  /** No known order has more money moved than its total. */
  ghost predicate Within(cat: Catalogue, issued: Book) {
    forall ref :: FindOrder(cat.orders, ref).Some? ==>
      NotNegative(Outstanding(cat, issued, FindOrder(cat.orders, ref).value))
  }

  /** The refunds issued on an order are numbered from one. */
  ghost predicate Numbered(issued: Book) {
    forall ref, i :: ref in issued && 0 <= i < |issued[ref]| ==> issued[ref][i].ref == RefundRef(ref, i + 1)
  }

  lemma {:induction false} RefundLeaves(outstanding: Money, amount: Money)
    requires NotNegative(outstanding) && !AtMost(amount, ZERO) && !Exceeds(amount, outstanding)
    ensures NotNegative(Minus(outstanding, amount)) <==> !amount.Nan?
  {
  }

  lemma {:induction false} AppendAt(cat: Catalogue, issued: Book, order: OrderRecord, refund: Refund, other: OrderRecord)
    requires NotNegative(Outstanding(cat, issued, order)) && NotNegative(Outstanding(cat, issued, other))
    requires refund.status.Issued? && !AtMost(refund.amount, ZERO)
    requires !Exceeds(refund.amount, Outstanding(cat, issued, order)) && (other.ref == order.ref ==> other == order)
    ensures NotNegative(Outstanding(cat, Append(issued, order.ref, refund), other))
            <==> other != order || !refund.amount.Nan?
  {
    if other == order {
      AppendLowers(cat, issued, order, refund);
      RefundLeaves(Outstanding(cat, issued, order), refund.amount);
    } else {
      AppendElsewhere(cat, issued, order.ref, refund, other.ref);
    }
  }

  lemma {:induction false} AppendWithin(cat: Catalogue, issued: Book, order: OrderRecord, refund: Refund)
    requires Within(cat, issued) && Acceptable(cat, issued, order, refund)
    ensures Within(cat, Append(issued, order.ref, refund)) <==> !refund.amount.Nan?
  {
    AppendAt(cat, issued, order, refund, order);
    forall ref | FindOrder(cat.orders, ref).Some? && !refund.amount.Nan?
      ensures NotNegative(Outstanding(cat, Append(issued, order.ref, refund), FindOrder(cat.orders, ref).value))
    {
      AppendAt(cat, issued, order, refund, FindOrder(cat.orders, ref).value);
    }
  }

  lemma {:induction false} AppendNumbered(issued: Book, ref: string, refund: Refund)
    requires Numbered(issued) && refund.ref == RefundRef(ref, |Entries(issued, ref)| + 1)
    ensures Numbered(Append(issued, ref, refund))
  {
  }

  lemma {:induction false} ApplyNumbered(issued: Book, result: Result<(OrderRecord, Refund), RefundError>)
    requires Numbered(issued)
    requires result.Ok? ==>
               result.value.1.ref == RefundRef(result.value.0.ref, |Entries(issued, result.value.0.ref)| + 1)
    ensures Numbered(Apply(issued, result))
  {
    if result.Ok? {
      AppendNumbered(issued, result.value.0.ref, result.value.1);
    }
  }

  /** A refund of what is not a number passes every guard but the two that compare it. */
  ghost predicate NanCall(cat: Catalogue, issued: Book, call: Call) {
    && call.amount == Number(Nan) && Addressed(cat, call)
    && Exceeds(Outstanding(cat, issued, OrderOf(cat, call)), ZERO)
  }

  /** A call keeps every order within its total exactly when it is not of that kind. */
  lemma {:induction false} IssueWithin(cat: Catalogue, issued: Book, call: Call)
    requires Within(cat, issued)
    ensures Within(cat, Issue(cat, issued, call)) <==> !NanCall(cat, issued, call)
  {
    AcceptedIff(cat, issued, call);
    var result := Issuing(cat, issued, call);
    if result.Ok? {
      NanIffAccepted(cat, issued, call);
      AppendWithin(cat, issued, result.value.0, result.value.1);
    }
  }

  lemma {:induction false} NanIffAccepted(cat: Catalogue, issued: Book, call: Call)
    requires Within(cat, issued) && Issuing(cat, issued, call).Ok?
    ensures NanCall(cat, issued, call) <==> Issuing(cat, issued, call).value.1.amount.Nan?
  {
    AcceptedIff(cat, issued, call);
    assert NotNegative(Outstanding(cat, issued, OrderOf(cat, call)));
  }

  lemma {:induction false} IssueNumbered(cat: Catalogue, issued: Book, call: Call)
    requires Numbered(issued)
    ensures Numbered(Issue(cat, issued, call))
  {
    AcceptedIff(cat, issued, call);
    ApplyNumbered(issued, Issuing(cat, issued, call));
  }

  lemma {:induction false} RunNumbered(cat: Catalogue, issued: Book, calls: seq<Call>)
    requires Numbered(issued)
    ensures Numbered(IssueAll(cat, issued, calls))
    decreases |calls|
  {
    if calls != [] {
      IssueNumbered(cat, issued, calls[0]);
      RunNumbered(cat, Issue(cat, issued, calls[0]), calls[1..]);
    }
  }

  /** No call of the sequence is a refund of what is not a number on an order that still
      has something outstanding. */
  ghost predicate NoNanCall(cat: Catalogue, issued: Book, calls: seq<Call>)
    decreases calls
  {
    calls == [] || (!NanCall(cat, issued, calls[0]) && NoNanCall(cat, Issue(cat, issued, calls[0]), calls[1..]))
  }

  lemma {:induction false} ApplyStaysNan(cat: Catalogue, issued: Book, order: OrderRecord,
                                         result: Result<(OrderRecord, Refund), RefundError>)
    requires Outstanding(cat, issued, order).Nan?
    ensures Outstanding(cat, Apply(issued, result), order).Nan?
  {
    if result.Ok? {
      var (named, refund) := result.value;
      if named.ref == order.ref {
        AppendLowers(cat, issued, order, refund);
      } else {
        AppendElsewhere(cat, issued, named.ref, refund, order.ref);
      }
    }
  }

  /** Once what is outstanding is not a number, it never is one again. */
  lemma {:induction false} StaysNan(cat: Catalogue, issued: Book, calls: seq<Call>, order: OrderRecord)
    requires Outstanding(cat, issued, order).Nan?
    ensures Outstanding(cat, IssueAll(cat, issued, calls), order).Nan?
    decreases |calls|
  {
    if calls != [] {
      ApplyStaysNan(cat, issued, order, Issuing(cat, issued, calls[0]));
      StaysNan(cat, Issue(cat, issued, calls[0]), calls[1..], order);
    }
  }

  lemma {:induction false} NanCallShows(cat: Catalogue, issued: Book, call: Call)
    requires NanCall(cat, issued, call)
    ensures Outstanding(cat, Issue(cat, issued, call), OrderOf(cat, call)).Nan?
  {
    AcceptedIff(cat, issued, call);
    IssueEffect(cat, issued, call);
  }

  /** Every sequence of calls ends with every order within its total, exactly when none of
      them is a refund of what is not a number on an order with something outstanding. */
  lemma {:induction false} NeverOverRefundedIff(cat: Catalogue, issued: Book, calls: seq<Call>)
    requires Within(cat, issued)
    ensures Within(cat, IssueAll(cat, issued, calls)) <==> NoNanCall(cat, issued, calls)
    decreases |calls|
  {
    if calls != [] {
      IssueWithin(cat, issued, calls[0]);
      if NanCall(cat, issued, calls[0]) {
        NanCallShows(cat, issued, calls[0]);
        StaysNan(cat, Issue(cat, issued, calls[0]), calls[1..], OrderOf(cat, calls[0]));
      } else {
        NeverOverRefundedIff(cat, Issue(cat, issued, calls[0]), calls[1..]);
      }
    }
  }

  /** In particular calls whose amounts are numbers never do harm. */
  lemma {:induction false} NumbersAreSafe(cat: Catalogue, issued: Book, calls: seq<Call>)
    requires forall i :: 0 <= i < |calls| ==> calls[i].amount != Number(Nan)
    ensures NoNanCall(cat, issued, calls)
    decreases |calls|
  {
    if calls != [] {
      assert forall i :: 0 <= i < |calls| - 1 ==> calls[1..][i] == calls[i + 1];
      NumbersAreSafe(cat, Issue(cat, issued, calls[0]), calls[1..]);
    }
  }

  /** Behind a refund of what is not a number, every positive amount is accepted. */
  lemma {:induction false} UnlimitedAfterNan(cat: Catalogue, issued: Book, first: Call, next: Call)
    requires NanCall(cat, issued, first) && Addressed(cat, next) && Trim(next.orderRef) == Trim(first.orderRef)
    requires next.amount.Number? && next.amount.value.Cents? && next.amount.value.cents > 0
    ensures Issuing(cat, issued, first).Ok?
    ensures Issuing(cat, Issue(cat, issued, first), next).Ok?
  {
    NanCallShows(cat, issued, first);
    AcceptedIff(cat, issued, first);
    AcceptedIff(cat, Issue(cat, issued, first), next);
  }

  /** A total of 64.00, a refund of what is not a number, and then one of 1000.00. */
  lemma {:induction false} NanExample()
    ensures var cat := Catalogue([OrderRecord("A", "USD", 6400)], map[]);
            var first := Call("A", Number(Nan), "USD", "r", 0);
            var next := Call("A", Number(Cents(100000)), "USD", "r", 1);
            && Within(cat, map[]) && Issuing(cat, map[], first).Ok?
            && Issuing(cat, Issue(cat, map[], first), next).Ok?
  {
    var order := OrderRecord("A", "USD", 6400);
    var cat := Catalogue([order], map[]);
    assert FindRefunds(cat, map[], "A") == [];
    assert Outstanding(cat, map[], order) == Cents(6400);
    assert FindOrder(cat.orders, "A") == Some(order);
    assert Trim("A") == "A" && Trim("r") == "r";
    UnlimitedAfterNan(cat, map[], Call("A", Number(Nan), "USD", "r", 0), Call("A", Number(Cents(100000)), "USD", "r", 1));
  }

  lemma {:induction false} ApplyFinds(cat: Catalogue, issued: Book, ref: string,
                                      result: Result<(OrderRecord, Refund), RefundError>)
    ensures multiset(FindRefunds(cat, issued, ref)) <= multiset(FindRefunds(cat, Apply(issued, result), ref))
  {
    if result.Ok? {
      var (order, refund) := result.value;
      if order.ref == ref {
        AppendFound(cat, issued, ref, refund);
      } else {
        AppendElsewhere(cat, issued, order.ref, refund, ref);
      }
    }
  }

  /** What is found on an order stays found, whatever is called later. */
  lemma {:induction false} StaysFound(cat: Catalogue, issued: Book, calls: seq<Call>, ref: string)
    ensures multiset(FindRefunds(cat, issued, ref)) <= multiset(FindRefunds(cat, IssueAll(cat, issued, calls), ref))
    decreases |calls|
  {
    if calls != [] {
      ApplyFinds(cat, issued, ref, Issuing(cat, issued, calls[0]));
      StaysFound(cat, Issue(cat, issued, calls[0]), calls[1..], ref);
    }
  }

  function Value(s: string): nat {
    if s == "" then 0 else 10 * Value(s[..|s| - 1]) + DigitValue(s[|s| - 1])
  }

  function DigitValue(c: char): nat {
    if '0' <= c <= '9' then (c as int - '0' as int) as nat else 0
  }

  /** A numeral reads back as its number. */
  lemma {:induction false} NumeralValue(n: nat)
    ensures Value(Numeral(n)) == n
    decreases n
  {
    if n < 10 {
      assert Numeral(n)[..0] == "";
      assert DigitValue(Digit(n)) == n;
    } else {
      NumeralValue(n / 10);
      var head := Numeral(n / 10);
      assert (head + [Digit(n % 10)])[..|head|] == head;
      assert DigitValue(Digit(n % 10)) == n % 10;
    }
  }

  lemma {:induction false} NumberBehind(prefix: string, a: string, b: string)
    requires a != b
    ensures prefix + a != prefix + b
  {
    assert (prefix + a)[|prefix|..] == a && (prefix + b)[|prefix|..] == b;
  }

  lemma {:induction false} NumeralsDiffer(m: nat, n: nat)
    requires m != n
    ensures Numeral(m) != Numeral(n)
  {
    NumeralValue(m);
    NumeralValue(n);
  }

  lemma {:induction false} RefsDiffer(ref: string, m: nat, n: nat)
    requires m != n
    ensures RefundRef(ref, m) != RefundRef(ref, n)
  {
    NumeralsDiffer(m, n);
    NumberBehind("REF-" + Suffix(ref) + "-", Numeral(m), Numeral(n));
  }

  lemma {:induction false} NumberedDistinct(issued: Book, ref: string, i: nat, j: nat)
    requires Numbered(issued) && ref in issued && i < j < |issued[ref]|
    ensures issued[ref][i].ref != issued[ref][j].ref
  {
    RefsDiffer(ref, i + 1, j + 1);
  }

  /** Over every sequence of calls on a new desk no two refunds issued on an order share a
      ref; and if its seeded refunds are within their orders, no order ends with more moved
      than its total exactly when no refund of what is not a number got through. */
  lemma {:induction false} DeskKeepsTotals(cat: Catalogue, calls: seq<Call>)
    ensures var issued := IssueAll(cat, map[], calls);
            forall ref, i, j :: ref in issued && 0 <= i < j < |issued[ref]| ==>
              issued[ref][i].ref != issued[ref][j].ref
    ensures Within(cat, map[]) ==> (Within(cat, IssueAll(cat, map[], calls)) <==> NoNanCall(cat, map[], calls))
  {
    if Within(cat, map[]) {
      NeverOverRefundedIff(cat, map[], calls);
    }
    RunNumbered(cat, map[], calls);
    var issued: Book := IssueAll(cat, map[], calls);
    forall ref: string, i: nat, j: nat | ref in issued && 0 <= i < j < |issued[ref]|
      ensures issued[ref][i].ref != issued[ref][j].ref
    {
      NumberedDistinct(issued, ref, i, j);
    }
  }

  // ------------------------------------------------------------ which refunds count

  /** Money has left the merchant for a refund that was issued or settled. */
  predicate LeftMerchant(status: RefundStatus) {
    status in {Issued, SettledRefund}
  }

  function WithStatus(refunds: seq<Refund>, status: RefundStatus): seq<Refund> {
    if refunds == [] then []
    else WithStatus(refunds[..|refunds| - 1], status)
         + if refunds[|refunds| - 1].status == status then [refunds[|refunds| - 1]] else []
  }

  predicate InCents(refunds: seq<Refund>) {
    forall i :: 0 <= i < |refunds| ==> refunds[i].amount.Cents?
  }

  function CentsOf(x: Refund): int {
    if x.amount.Cents? then x.amount.cents else 0
  }

  function SumCents(refunds: seq<Refund>): int {
    if refunds == [] then 0 else SumCents(refunds[..|refunds| - 1]) + CentsOf(refunds[|refunds| - 1])
  }

  lemma {:induction false} SumCentsSnoc(refunds: seq<Refund>, x: Refund)
    ensures SumCents(refunds + [x]) == SumCents(refunds) + CentsOf(x)
  {
    assert (refunds + [x])[..|refunds|] == refunds;
  }

  lemma {:induction false} WithStatusSum(refunds: seq<Refund>, status: RefundStatus)
    requires refunds != []
    ensures var before, last := refunds[..|refunds| - 1], refunds[|refunds| - 1];
            SumCents(WithStatus(refunds, status))
            == SumCents(WithStatus(before, status)) + if last.status == status then CentsOf(last) else 0
  {
    var before, last := refunds[..|refunds| - 1], refunds[|refunds| - 1];
    if last.status == status {
      SumCentsSnoc(WithStatus(before, status), last);
    } else {
      assert WithStatus(refunds, status) == WithStatus(before, status);
    }
  }

  /** What has moved is what was issued and what was settled, and nothing else. */
  lemma {:induction false} MovedIsIssuedOrSettled(refunds: seq<Refund>)
    requires InCents(refunds)
    ensures MovedSum(refunds) == Cents(SumCents(WithStatus(refunds, Issued)) + SumCents(WithStatus(refunds, SettledRefund)))
    decreases |refunds|
  {
    if refunds != [] {
      MovedIsIssuedOrSettled(refunds[..|refunds| - 1]);
      WithStatusSum(refunds, Issued);
      WithStatusSum(refunds, SettledRefund);
    }
  }

  lemma {:induction false} NothingMoved(refunds: seq<Refund>)
    requires forall i :: 0 <= i < |refunds| ==> !LeftMerchant(refunds[i].status)
    ensures MovedSum(refunds) == ZERO
    decreases |refunds|
  {
    if refunds != [] { NothingMoved(refunds[..|refunds| - 1]); }
  }

  /** For refunds in cents, what is outstanding is the total less the amounts of exactly the
      issued and the settled ones. */
  lemma {:induction false} OutstandingIs(cat: Catalogue, issued: Book, order: OrderRecord, refunds: seq<Refund>)
    requires refunds == FindRefunds(cat, issued, order.ref) && InCents(refunds)
    ensures Outstanding(cat, issued, order)
            == Cents(order.total - SumCents(WithStatus(refunds, Issued)) - SumCents(WithStatus(refunds, SettledRefund)))
  {
    LessMoved(order.total, refunds);
  }

  lemma {:induction false} LessMoved(total: int, refunds: seq<Refund>)
    requires InCents(refunds)
    ensures Minus(Cents(total), MovedSum(refunds))
            == Cents(total - SumCents(WithStatus(refunds, Issued)) - SumCents(WithStatus(refunds, SettledRefund)))
  {
    MovedIsIssuedOrSettled(refunds);
  }

  /** An order on which no refund was issued or settled has its whole total outstanding. */
  lemma {:induction false} WholeTotalOutstanding(cat: Catalogue, issued: Book, order: OrderRecord, refunds: seq<Refund>)
    requires refunds == FindRefunds(cat, issued, order.ref)
    requires forall i :: 0 <= i < |refunds| ==> !LeftMerchant(refunds[i].status)
    ensures Outstanding(cat, issued, order) == Cents(order.total)
  {
    NothingMoved(refunds);
  }

  /** So behind refunds that are stuck or failed, a corrective one up to the whole total is accepted. */
  lemma {:induction false} CorrectiveRefund(cat: Catalogue, issued: Book, call: Call, refunds: seq<Refund>)
    requires Addressed(cat, call) && refunds == FindRefunds(cat, issued, OrderOf(cat, call).ref)
    requires forall i :: 0 <= i < |refunds| ==> !LeftMerchant(refunds[i].status)
    requires call.amount.Number? && call.amount.value.Cents? && 0 < call.amount.value.cents <= OrderOf(cat, call).total
    ensures Issuing(cat, issued, call).Ok?
  {
    WholeTotalOutstanding(cat, issued, OrderOf(cat, call), refunds);
    AcceptedIff(cat, issued, call);
  }

  /** A refund reference ends an order's with what stands behind its last dash. */
  lemma {:induction false} SuffixIs(ref: string) returns (k: nat)
    ensures k <= |ref| && Suffix(ref) == ref[k..] && '-' !in Suffix(ref) && (k > 0 ==> ref[k - 1] == '-')
    decreases |ref|
  {
    if ref == "" || ref[|ref| - 1] == '-' {
      k := |ref|;
    } else {
      k := SuffixIs(ref[..|ref| - 1]);
      assert ref[k..] == ref[..|ref| - 1][k..] + [ref[|ref| - 1]];
    }
  }
}
