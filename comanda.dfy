/** The comanda (tab) aggregate: its line items, the subtotal and total computed
    over them, and the entity whose setters the services call. */
module ComandaModel {
  import opened Outcomes
  import opened JavaInts

  /** A reading of the clock; the source stamps times with LocalDateTime.now(). */
  type Time = nat

  datatype Status = ABERTA | FECHADA

  datatype PaymentMethod = CASH | PIX | DEBIT_CARD | CREDIT_CARD | FOOD_VOUCHER | TRANSFER

  /** A ComandaItem: the product it refers to (by id), a nullable quantity, the
      nullable unit price captured when the line was created, and the
      back-reference to the owning comanda (by id, None when detached). */
  datatype Item = Item(id: nat, product: nat, quantity: Option<int>, unitPrice: Option<real>,
                       comanda: Option<nat>)

  /** `new ComandaItem(product, quantity, unitPrice)`, given the id it is stored under. */
  function NewItem(id: nat, product: nat, quantity: int, unitPrice: real): (r: Item)
    ensures r.id == id && r.product == product && r.comanda == None
    ensures r.quantity == Some(quantity) && r.unitPrice == Some(unitPrice)
    ensures LineTotal(r) == Amount(unitPrice, quantity)
  {
    Item(id, product, Some(quantity), Some(unitPrice), None)
  }

  /** The price of a number of units. */
  function Amount(unitPrice: real, quantity: int): real {
    unitPrice * quantity as real
  }

  predicate NonNegativeLine(item: Item) {
    (item.quantity.Some? ==> item.quantity.value >= 0) &&
    (item.unitPrice.Some? ==> item.unitPrice.value >= 0.0)
  }

  /** getLineTotal: a missing price or quantity contributes nothing. */
  function LineTotal(item: Item): (r: real)
    ensures item.unitPrice.None? || item.quantity.None? ==> r == 0.0
    ensures NonNegativeLine(item) ==> r >= 0.0
  {
    if item.unitPrice.None? || item.quantity.None? then 0.0
    else Amount(item.unitPrice.value, item.quantity.value)
  }

  /** The sum of the line totals, in list order (getSubtotal). */
  function SumOfLines(items: seq<Item>): real
  {
    if items == [] then 0.0
    else SumOfLines(items[..|items| - 1]) + LineTotal(items[|items| - 1])
  }

  /** Lines with non-negative prices and quantities have a non-negative sum. */
  lemma {:induction false} SumOfLinesNonNegative(items: seq<Item>)
    requires forall k :: 0 <= k < |items| ==> NonNegativeLine(items[k])
    ensures SumOfLines(items) >= 0.0
  {
    if items != [] {
      SumOfLinesNonNegative(items[..|items| - 1]);
    }
  }

  lemma {:induction false} SumOfLinesConcat(a: seq<Item>, b: seq<Item>)
    ensures SumOfLines(a + b) == SumOfLines(a) + SumOfLines(b)
    decreases |b|
  {
    if b == [] {
      assert a + b == a;
    } else {
      var front := b[..|b| - 1];
      SumOfLinesConcat(a, front);
      assert (a + b)[..|a + b| - 1] == a + front;
      assert (a + b)[|a + b| - 1] == b[|b| - 1];
    }
  }

  lemma SumOfLinesSingle(x: Item)
    ensures SumOfLines([x]) == LineTotal(x)
  {
    assert [x][..0] == [];
  }

  /** Appending a line adds its line total. */
  lemma SumOfLinesAppend(s: seq<Item>, x: Item)
    ensures SumOfLines(s + [x]) == SumOfLines(s) + LineTotal(x)
  {
    SumOfLinesConcat(s, [x]);
    SumOfLinesSingle(x);
  }

  /** Deleting the line at k subtracts its line total. */
  lemma SumOfLinesRemoveAt(s: seq<Item>, k: nat)
    requires k < |s|
    ensures SumOfLines(s[..k] + s[k + 1..]) == SumOfLines(s) - LineTotal(s[k])
  {
    assert s == s[..k] + ([s[k]] + s[k + 1..]);
    SumOfLinesConcat(s[..k], [s[k]] + s[k + 1..]);
    SumOfLinesConcat([s[k]], s[k + 1..]);
    SumOfLinesConcat(s[..k], s[k + 1..]);
    SumOfLinesSingle(s[k]);
  }

  /** Replacing the line at k changes the sum by the difference of the two line totals. */
  lemma SumOfLinesUpdate(s: seq<Item>, k: nat, x: Item)
    requires k < |s|
    ensures SumOfLines(s[k := x]) == SumOfLines(s) - LineTotal(s[k]) + LineTotal(x)
  {
    assert s[k := x] == s[..k] + ([x] + s[k + 1..]);
    SumOfLinesConcat(s[..k], [x] + s[k + 1..]);
    SumOfLinesConcat([x], s[k + 1..]);
    SumOfLinesSingle(x);
    SumOfLinesRemoveAt(s, k);
    SumOfLinesConcat(s[..k], s[k + 1..]);
  }

  /** Raising a line's quantity raises the sum by the added quantity at the line's own price. */
  lemma SumOfLinesAddQuantity(items: seq<Item>, k: nat, quantity: int)
    requires k < |items| && items[k].quantity.Some? && items[k].unitPrice.Some?
    ensures SumOfLines(items[k := items[k].(quantity := Some(items[k].quantity.value + quantity))]) ==
            SumOfLines(items) + Amount(items[k].unitPrice.value, quantity)
  {
    var line := items[k];
    SumOfLinesUpdate(items, k, line.(quantity := Some(line.quantity.value + quantity)));
    LineTotalAddQuantity(line, quantity);
  }

  lemma LineTotalAddQuantity(line: Item, quantity: int)
    requires line.quantity.Some? && line.unitPrice.Some?
    ensures LineTotal(line.(quantity := Some(line.quantity.value + quantity))) ==
            LineTotal(line) + Amount(line.unitPrice.value, quantity)
  {
  }

  /** getTotal: the subtotal less the percentage discount less the fixed discount,
      a null discount counting as zero, clamped at zero from below. */
  function ClampedTotal(subtotal: real, discountPercent: Option<real>, discountAmount: Option<real>): (r: real)
    ensures r >= 0.0
  {
    var withPercentageDiscount := subtotal - subtotal * (discountPercent.GetOr(0.0) / 100.0);
    var net := withPercentageDiscount - discountAmount.GetOr(0.0);
    if net > 0.0 then net else 0.0
  }

  /** The total in closed form: max(0, subtotal * (1 - percent / 100) - amount). */
  lemma TotalFormula(subtotal: real, percent: Option<real>, amount: Option<real>)
    ensures var p, a := percent.GetOr(0.0), amount.GetOr(0.0);
            var net := subtotal * (1.0 - p / 100.0) - a;
            ClampedTotal(subtotal, percent, amount) == if net >= 0.0 then net else 0.0
    ensures ClampedTotal(subtotal, None, amount) == ClampedTotal(subtotal, Some(0.0), amount)
    ensures ClampedTotal(subtotal, percent, None) == ClampedTotal(subtotal, percent, Some(0.0))
  {
  }

  /** With a non-negative subtotal and in-range discounts the total lies in [0, subtotal]. */
  lemma TotalWithinSubtotal(subtotal: real, percent: real, amount: real)
    requires subtotal >= 0.0 && 0.0 <= percent <= 100.0 && amount >= 0.0
    ensures 0.0 <= ClampedTotal(subtotal, Some(percent), Some(amount)) <= subtotal
  {
    assert subtotal * (percent / 100.0) >= 0.0;
  }

  predicate OneLinePerProduct(items: seq<Item>) {
    forall i, j :: 0 <= i < j < |items| ==> items[i].product != items[j].product
  }

  predicate DistinctItemIds(items: seq<Item>) {
    forall i, j :: 0 <= i < j < |items| ==> items[i].id != items[j].id
  }

  /** The line holds a quantity, a Java int. */
  predicate HasQuantity(item: Item) {
    item.quantity.Some? && InInt32(item.quantity.value)
  }

  /** The line holds a captured price. */
  predicate HasPrice(item: Item) {
    item.unitPrice.Some?
  }

  predicate HasQuantities(items: seq<Item>) {
    forall k :: 0 <= k < |items| ==> HasQuantity(items[k])
  }

  predicate HasPrices(items: seq<Item>) {
    forall k :: 0 <= k < |items| ==> HasPrice(items[k])
  }

  /** A line as the service keeps it: attached to its comanda, with a quantity and a
      captured price. */
  predicate WellFormedLine(item: Item, owner: nat) {
    item.comanda == Some(owner) && HasQuantity(item) && HasPrice(item)
  }

  /** Every line holds at least one unit. */
  predicate PositiveQuantities(items: seq<Item>) {
    forall k :: 0 <= k < |items| ==> items[k].quantity.Some? && items[k].quantity.value >= 1
  }

  /** The value of a comanda's fields at one moment, as the service's response reports it. */
  datatype ComandaState = ComandaState(
    id: nat,
    customerName: string,
    customer: Option<nat>,
    status: Status,
    createdAt: Option<Time>,
    closedAt: Option<Time>,
    discountPercent: Option<real>,
    discountAmount: Option<real>,
    paymentMethod: Option<PaymentMethod>,
    items: seq<Item>)
  {
    function Subtotal(): real {
      SumOfLines(items)
    }

    function Total(): real {
      ClampedTotal(Subtotal(), discountPercent, discountAmount)
    }

    /** What every service operation keeps: closedAt is stamped exactly when the
        comanda is FECHADA, each product has at most one line, item ids are distinct,
        and lines are well formed. */
    predicate Consistent() {
      (status == FECHADA <==> closedAt.Some?) &&
      OneLinePerProduct(items) && DistinctItemIds(items) &&
      forall k :: 0 <= k < |items| ==> WellFormedLine(items[k], id)
    }
  }

  /** `List.remove(Object)`: deletes the first element equal to x, if any. */
  function RemoveFirst(s: seq<Item>, x: Item): (r: seq<Item>)
    ensures x !in s ==> r == s
    ensures x in s ==> |r| == |s| - 1
  {
    if s == [] then []
    else if s[0] == x then s[1..]
    else [s[0]] + RemoveFirst(s[1..], x)
  }

  /** Removing the element at k, when no earlier element equals it, deletes exactly
      position k and keeps the order of the rest. */
  lemma {:induction false} RemoveFirstAt(s: seq<Item>, k: nat)
    requires k < |s|
    requires forall j :: 0 <= j < k ==> s[j] != s[k]
    ensures RemoveFirst(s, s[k]) == s[..k] + s[k + 1..]
  {
    if k > 0 {
      var tail := s[1..];
      assert tail[k - 1] == s[k];
      RemoveFirstAt(tail, k - 1);
      assert s[..k] == [s[0]] + tail[..k - 1];
      assert s[k + 1..] == tail[k..];
    }
  }

  class Comanda {
    const id: nat
    var customerName: string
    var customer: Option<nat>
    var status: Status
    var createdAt: Option<Time>
    var closedAt: Option<Time>
    var discountPercent: Option<real>
    var discountAmount: Option<real>
    var paymentMethod: Option<PaymentMethod>
    var items: seq<Item>

    function State(): ComandaState
      reads this
    {
      ComandaState(id, customerName, customer, status, createdAt, closedAt,
                   discountPercent, discountAmount, paymentMethod, items)
    }

    /** `new Comanda(customerName)`, given the id the repository assigns to it. */
    constructor (id: nat, customerName: string)
      ensures State() == ComandaState(id, customerName, None, ABERTA, None, None,
                                      Some(0.0), Some(0.0), None, [])
      ensures State().Consistent() && State().Total() == 0.0
    {
      this.id := id;
      this.customerName := customerName;
      customer := None;
      status := ABERTA;
      createdAt := None;
      closedAt := None;
      discountPercent := Some(0.0);
      discountAmount := Some(0.0);
      paymentMethod := None;
      items := [];
    }

    /** The @PrePersist hook: stamps the creation time. */
    method OnCreate(now: Time)
      modifies this
      ensures State() == old(State()).(createdAt := Some(now))
    {
      createdAt := Some(now);
    }

    method SetCustomer(customer: Option<nat>)
      modifies this
      ensures State() == old(State()).(customer := customer)
    {
      this.customer := customer;
    }

    method SetStatus(status: Status)
      modifies this
      ensures State() == old(State()).(status := status)
    {
      this.status := status;
    }

    method SetClosedAt(closedAt: Option<Time>)
      modifies this
      ensures State() == old(State()).(closedAt := closedAt)
    {
      this.closedAt := closedAt;
    }

    /** Stores the given percentage, or 0 when given null. */
    method SetDiscountPercent(discountPercent: Option<real>)
      modifies this
      ensures State() == old(State()).(discountPercent := Some(discountPercent.GetOr(0.0)))
    {
      this.discountPercent := Some(if discountPercent.Some? then discountPercent.value else 0.0);
    }

    /** Stores the given fixed amount, or 0 when given null. */
    method SetDiscountAmount(discountAmount: Option<real>)
      modifies this
      ensures State() == old(State()).(discountAmount := Some(discountAmount.GetOr(0.0)))
    {
      this.discountAmount := Some(if discountAmount.Some? then discountAmount.value else 0.0);
    }

    method SetPaymentMethod(paymentMethod: Option<PaymentMethod>)
      modifies this
      ensures State() == old(State()).(paymentMethod := paymentMethod)
    {
      this.paymentMethod := paymentMethod;
    }

    /** Attaches the item to this comanda and appends it; earlier lines are untouched. */
    method AddItem(item: Item)
      modifies this
      ensures State() == old(State()).(items := old(items) + [item.(comanda := Some(id))])
      ensures State().Subtotal() == old(State().Subtotal()) + LineTotal(item)
    {
      items := items + [item.(comanda := Some(id))];
      SumOfLinesAppend(old(items), item.(comanda := Some(id)));
    }

    /** Removes the first line equal to the item and returns the item detached. */
    method RemoveItem(item: Item) returns (detached: Item)
      modifies this
      ensures State() == old(State()).(items := RemoveFirst(old(items), item))
      ensures detached == item.(comanda := None)
    {
      items := RemoveFirst(items, item);
      detached := item.(comanda := None);
    }
  }
}
