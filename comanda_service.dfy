/** The comanda service (ComandaServiceImpl): each operation loads a comanda by id,
    checks it is still open, changes it in place and answers with its new state. */
module ComandaServices {
  import opened Outcomes
  import opened ComandaModel
  import opened DiscountRequests
  import opened JavaInts
  import Products

  /** availablePaymentMethods: the name of every payment method. */
  function AvailablePaymentMethods(): seq<PaymentMethod> {
    [CASH, PIX, DEBIT_CARD, CREDIT_CARD, FOOD_VOUCHER, TRANSFER]
  }

  /** The listing names every payment method, each exactly once. */
  lemma AvailablePaymentMethodsComplete()
    ensures forall m: PaymentMethod :: m in AvailablePaymentMethods()
    ensures var r := AvailablePaymentMethods();
            forall i, j :: 0 <= i < j < |r| ==> r[i] != r[j]
  {
    var r := AvailablePaymentMethods();
    forall m: PaymentMethod ensures m in r {
      match m
      case CASH => assert r[0] == m;
      case PIX => assert r[1] == m;
      case DEBIT_CARD => assert r[2] == m;
      case CREDIT_CARD => assert r[3] == m;
      case FOOD_VOUCHER => assert r[4] == m;
      case TRANSFER => assert r[5] == m;
    }
  }

  /** The first line of the comanda for the product (addItem's filter, first element). */
  function FindLineByProduct(items: seq<Item>, product: nat): (r: Option<nat>)
    ensures r.Some? ==> r.value < |items| && items[r.value].product == product &&
                        forall j :: 0 <= j < r.value ==> items[j].product != product
    ensures r.None? ==> forall j :: 0 <= j < |items| ==> items[j].product != product
  {
    if items == [] then None
    else if items[0].product == product then Some(0)
    else match FindLineByProduct(items[1..], product)
         case None => None
         case Some(k) => Some(k + 1)
  }

  /** The first line of the comanda with the given id (removeItem's filter/findFirst). */
  function FindLineById(items: seq<Item>, itemId: nat): (r: Option<nat>)
    ensures r.Some? ==> r.value < |items| && items[r.value].id == itemId &&
                        forall j :: 0 <= j < r.value ==> items[j].id != itemId
    ensures r.None? ==> forall j :: 0 <= j < |items| ==> items[j].id != itemId
  {
    if items == [] then None
    else if items[0].id == itemId then Some(0)
    else match FindLineById(items[1..], itemId)
         case None => None
         case Some(k) => Some(k + 1)
  }

  /** The lines after addItem: the first line for the product gains the quantity (a
      Java int sum, which wraps) and keeps the price it captured; when there is none,
      a line priced at the product's current price and attached to the comanda is
      appended. Lines of other products are untouched either way. */
  function MergeLine(items: seq<Item>, product: nat, quantity: int, price: real,
                     newId: nat, owner: nat): (r: seq<Item>)
    requires HasQuantities(items) && InInt32(quantity)
    ensures FindLineByProduct(items, product).Some? ==> |r| == |items|
    ensures FindLineByProduct(items, product).None? ==>
              |r| == |items| + 1 && r[..|items|] == items && r[|items|].product == product
    ensures forall j :: 0 <= j < |items| && items[j].product != product ==> r[j] == items[j]
  {
    match FindLineByProduct(items, product)
    case Some(k) => items[k := items[k].(quantity := Some(Int32Add(items[k].quantity.value, quantity)))]
    case None => items + [NewItem(newId, product, quantity, price).(comanda := Some(owner))]
  }

  /** The quantity on the product's line, zero when it has none. */
  function QuantityOf(items: seq<Item>, product: nat): (r: int)
    requires HasQuantities(items)
    ensures InInt32(r)
  {
    match FindLineByProduct(items, product)
    case Some(k) => items[k].quantity.value
    case None => 0
  }

  /** The price the product's line captured, or the current price when it has none. */
  function CapturedPrice(items: seq<Item>, product: nat, price: real): real
  {
    match FindLineByProduct(items, product)
    case Some(k) => items[k].unitPrice.GetOr(0.0)
    case None => price
  }

  /** The lines after removeItem: the line with the id is deleted, the others keep their order. */
  function WithoutLine(items: seq<Item>, itemId: nat): (r: seq<Item>)
    ensures FindLineById(items, itemId).Some? ==> |r| == |items| - 1
    ensures forall j :: 0 <= j < |r| ==> r[j] in items
  {
    match FindLineById(items, itemId)
    case Some(k) => items[..k] + items[k + 1..]
    case None => items
  }

  predicate IdsBelow(items: seq<Item>, bound: nat) {
    forall k :: 0 <= k < |items| ==> items[k].id < bound
  }

  /** addItem on a consistent comanda leaves it consistent: still one line per product,
      distinct item ids, every line attached with a Java int quantity and a price. */
  lemma MergeKeepsConsistent(s: ComandaState, product: nat, quantity: int, price: real, newId: nat)
    requires s.Consistent() && InInt32(quantity) && IdsBelow(s.items, newId)
    ensures HasQuantities(s.items)
    ensures var merged := s.(items := MergeLine(s.items, product, quantity, price, newId, s.id));
            merged.Consistent() &&
            IdsBelow(merged.items, if FindLineByProduct(s.items, product).None? then newId + 1 else newId)
  {
    var merged := MergeLine(s.items, product, quantity, price, newId, s.id);
    match FindLineByProduct(s.items, product)
    case Some(k) =>
      assert forall j :: 0 <= j < |merged| ==> merged[j].product == s.items[j].product;
      assert forall j :: 0 <= j < |merged| ==> merged[j].id == s.items[j].id;
    case None =>
      assert merged == s.items + [merged[|s.items|]];
  }

  /** addItem changes the subtotal by the quantity the product's line actually gains
      (the Java int sum less what it held) at the captured price: the existing line's
      price, or the product's current price for a new line. Without overflow, that is
      the requested quantity. */
  lemma MergeSubtotal(items: seq<Item>, product: nat, quantity: int, price: real,
                      newId: nat, owner: nat)
    requires HasQuantities(items) && HasPrices(items) && InInt32(quantity)
    ensures var before := QuantityOf(items, product);
            SumOfLines(MergeLine(items, product, quantity, price, newId, owner)) ==
            SumOfLines(items) + Amount(CapturedPrice(items, product, price),
                                       Int32Add(before, quantity) - before)
    ensures InInt32(QuantityOf(items, product) + quantity) ==>
              SumOfLines(MergeLine(items, product, quantity, price, newId, owner)) ==
              SumOfLines(items) + Amount(CapturedPrice(items, product, price), quantity)
  {
    match FindLineByProduct(items, product)
    case Some(k) =>
      var q := items[k].quantity.value;
      var gained := Int32Add(q, quantity) - q;
      assert MergeLine(items, product, quantity, price, newId, owner) ==
             items[k := items[k].(quantity := Some(q + gained))];
      SumOfLinesAddQuantity(items, k, gained);
    case None =>
      SumOfLinesAppend(items, NewItem(newId, product, quantity, price).(comanda := Some(owner)));
  }

  /** One addItem call for the product: its line then holds the Java int sum of the
      earlier quantity and the new one, at the captured price, and each product still
      has one line. */
  lemma MergeAccumulates(items: seq<Item>, product: nat, quantity: int, price: real,
                         newId: nat, owner: nat)
    requires HasQuantities(items) && OneLinePerProduct(items)
    requires HasPrices(items) && InInt32(quantity)
    ensures var merged := MergeLine(items, product, quantity, price, newId, owner);
            HasQuantities(merged) && OneLinePerProduct(merged) &&
            HasPrices(merged) &&
            FindLineByProduct(merged, product).Some? &&
            QuantityOf(merged, product) == Int32Add(QuantityOf(items, product), quantity) &&
            CapturedPrice(merged, product, price) == CapturedPrice(items, product, price)
  {
    var merged := MergeLine(items, product, quantity, price, newId, owner);
    match FindLineByProduct(items, product)
    case Some(k) =>
      assert forall j :: 0 <= j < |merged| ==> merged[j].product == items[j].product;
      assert FindLineByProduct(merged, product) == Some(k) by {
        var f := FindLineByProduct(merged, product);
        assert f.Some? && f.value <= k;
        assert f.value == k;
      }
    case None =>
      assert merged[|items|].product == product;
      assert FindLineByProduct(merged, product) == Some(|items|) by {
        var f := FindLineByProduct(merged, product);
        assert f.Some?;
        assert f.value == |items|;
      }
  }

  /** With validated quantities (at least one unit), every line keeps at least one
      unit after addItem exactly when the product's Java int sum does not pass
      2^31 - 1; past it, the sum wraps and the line's quantity turns negative. */
  lemma MergeKeepsPositive(items: seq<Item>, product: nat, quantity: int, price: real,
                           newId: nat, owner: nat)
    requires HasQuantities(items) && PositiveQuantities(items) && 1 <= quantity <= MAX_INT
    ensures PositiveQuantities(MergeLine(items, product, quantity, price, newId, owner)) <==>
            QuantityOf(items, product) + quantity <= MAX_INT
  {
    var merged := MergeLine(items, product, quantity, price, newId, owner);
    match FindLineByProduct(items, product)
    case Some(k) =>
      var q := items[k].quantity.value;
      if q + quantity > MAX_INT {
        assert Int32Add(q, quantity) == q + quantity - 0x1_0000_0000;
        assert merged[k].quantity.value < 1;
      }
    case None =>
      assert merged[|items|].quantity == Some(quantity);
  }

  /** The overflow, on one line: a line holding 2^31 - 1 units that receives one more
      holds -2^31 units, and the comanda's subtotal turns negative. */
  lemma QuantityOverflowWraps()
    ensures var items := [Item(1, 7, Some(MAX_INT), Some(2.0), Some(3))];
            var merged := MergeLine(items, 7, 1, 2.0, 2, 3);
            merged == [Item(1, 7, Some(MIN_INT), Some(2.0), Some(3))] && SumOfLines(merged) < 0.0
  {
    var items := [Item(1, 7, Some(MAX_INT), Some(2.0), Some(3))];
    assert FindLineByProduct(items, 7) == Some(0);
    var merged := MergeLine(items, 7, 1, 2.0, 2, 3);
    SumOfLinesSingle(merged[0]);
  }

  /** Unvalidated quantities, as CartController passes them: a request of 0 units
      opens a line of 0 units, and a request of -3 units takes a line of 2 units to -1. */
  lemma UnvalidatedQuantities()
    ensures MergeLine([], 7, 0, 2.0, 1, 3) == [Item(1, 7, Some(0), Some(2.0), Some(3))]
    ensures var items := [Item(1, 7, Some(2), Some(2.0), Some(3))];
            MergeLine(items, 7, -3, 2.0, 2, 3) == [Item(1, 7, Some(-1), Some(2.0), Some(3))]
  {
    assert FindLineByProduct([Item(1, 7, Some(2), Some(2.0), Some(3))], 7) == Some(0);
  }

  /** A series of addItem calls for one product, in order. Only the first of them can
      create a line, so all of them share the id that line would get. */
  function MergeAll(items: seq<Item>, product: nat, quantities: seq<int>, price: real,
                    newId: nat, owner: nat): seq<Item>
    requires HasQuantities(items) && OneLinePerProduct(items)
    requires HasPrices(items) && AllInInt32(quantities)
    decreases |quantities|
  {
    if quantities == [] then items
    else
      MergeAccumulates(items, product, quantities[0], price, newId, owner);
      MergeAll(MergeLine(items, product, quantities[0], price, newId, owner),
               product, quantities[1..], price, newId, owner)
  }

  /** Repeated addItem calls for one product end with exactly one line for it, holding
      what it held plus the requested quantities, added one Java int `+` at a time,
      at the price captured by its first addition. */
  lemma {:induction false} MergeAllAccumulates(items: seq<Item>, product: nat, quantities: seq<int>,
                                               price: real, newId: nat, owner: nat)
    requires HasQuantities(items) && OneLinePerProduct(items)
    requires HasPrices(items) && AllInInt32(quantities)
    requires quantities != []
    ensures var merged := MergeAll(items, product, quantities, price, newId, owner);
            HasQuantities(merged) && OneLinePerProduct(merged) &&
            FindLineByProduct(merged, product).Some? &&
            QuantityOf(merged, product) == Int32Sum(QuantityOf(items, product), quantities) &&
            CapturedPrice(merged, product, price) == CapturedPrice(items, product, price)
    decreases |quantities|
  {
    MergeAccumulates(items, product, quantities[0], price, newId, owner);
    var once := MergeLine(items, product, quantities[0], price, newId, owner);
    if |quantities| > 1 {
      MergeAllAccumulates(once, product, quantities[1..], price, newId, owner);
    } else {
      assert quantities[1..] == [];
    }
  }

  /** Deleting one line keeps a comanda consistent. */
  lemma DeleteLineKeepsConsistent(s: ComandaState, k: nat)
    requires s.Consistent() && k < |s.items|
    ensures s.(items := s.items[..k] + s.items[k + 1..]).Consistent()
  {
    var rest := s.items[..k] + s.items[k + 1..];
    assert forall j :: 0 <= j < |rest| ==> rest[j] == s.items[if j < k then j else j + 1];
  }

  /** removeItem deletes exactly the line with the id: the rest keep their order,
      the subtotal drops by its line total, and the comanda stays consistent. */
  lemma RemoveLineEffect(s: ComandaState, itemId: nat)
    requires s.Consistent()
    ensures FindLineById(s.items, itemId).None? ==> WithoutLine(s.items, itemId) == s.items
    ensures FindLineById(s.items, itemId).Some? ==>
              var k := FindLineById(s.items, itemId).value;
              var rest := WithoutLine(s.items, itemId);
              rest == s.items[..k] + s.items[k + 1..] &&
              (forall j :: 0 <= j < |rest| ==> rest[j].id != itemId) &&
              SumOfLines(rest) == SumOfLines(s.items) - LineTotal(s.items[k]) &&
              s.(items := rest).Consistent()
  {
    match FindLineById(s.items, itemId)
    case Some(k) =>
      var rest := s.items[..k] + s.items[k + 1..];
      SumOfLinesRemoveAt(s.items, k);
      DeleteLineKeepsConsistent(s, k);
      forall j | 0 <= j < |rest| ensures rest[j].id != itemId {
        var i := if j < k then j else j + 1;
        assert rest[j] == s.items[i];
      }
    case None =>
  }

  class ComandaService {
    var comandas: map<nat, Comanda>
    var nextId: nat
    var nextItemId: nat
    var customers: set<nat>
    const catalog: Products.ProductService

    /** Each comanda is stored under its own id and is consistent; ids handed out so
        far are below the counters. */
    ghost predicate Valid()
      reads this, comandas.Values
    {
      forall id :: id in comandas ==>
        comandas[id].id == id && id < nextId &&
        comandas[id].State().Consistent() && IdsBelow(comandas[id].items, nextItemId)
    }

    /** Changing only the comanda stored under one id, and keeping it consistent,
        keeps the whole store valid. */
    twostate lemma KeepsValid(id: nat)
      requires old(Valid())
      requires comandas == old(comandas) && nextId == old(nextId) && old(nextItemId) <= nextItemId
      requires id in comandas && comandas[id].State().Consistent()
      requires IdsBelow(comandas[id].items, nextItemId)
      requires forall j :: j in comandas && j != id ==> unchanged(comandas[j])
      ensures Valid()
    {
      forall j | j in comandas
        ensures comandas[j].id == j && j < nextId && comandas[j].State().Consistent()
        ensures IdsBelow(comandas[j].items, nextItemId)
      {
        if j != id {
          assert comandas[j].State() == old(comandas[j].State());
        }
      }
    }

    /** The comanda stored under the id, as a set to name in a modifies clause. */
    function Target(id: nat): set<object>
      reads this
    {
      if id in comandas then {comandas[id]} else {}
    }

    constructor (catalog: Products.ProductService, customers: set<nat>)
      ensures Valid() && comandas == map[] && this.catalog == catalog && this.customers == customers
      ensures nextId == 1 && nextItemId == 1
    {
      comandas := map[];
      nextId := 1;
      nextItemId := 1;
      this.customers := customers;
      this.catalog := catalog;
    }

    method FindById(id: nat) returns (r: Result<ComandaState>)
      ensures id in comandas ==> r == Ok(comandas[id].State())
      ensures id !in comandas ==> r == Err(ComandaNotFound(id))
    {
      if id !in comandas {
        return Err(ComandaNotFound(id));
      }
      r := Ok(comandas[id].State());
    }

    /** findOpenComanda: the lookup followed by ensureOpen. */
    method FindOpenComanda(id: nat) returns (r: Result<Comanda>)
      ensures id !in comandas ==> r == Err(ComandaNotFound(id))
      ensures id in comandas && comandas[id].status != ABERTA ==> r == Err(ComandaClosed(id))
      ensures id in comandas && comandas[id].status == ABERTA ==> r == Ok(comandas[id])
    {
      if id !in comandas {
        return Err(ComandaNotFound(id));
      }
      var comanda := comandas[id];
      if comanda.status != ABERTA {
        return Err(ComandaClosed(id));
      }
      r := Ok(comanda);
    }

    /** Opens a comanda for the customer name, linked to the customer when an id is given. */
    method Create(customerName: string, customerId: Option<nat>, now: Time) returns (r: Result<ComandaState>)
      requires Valid()
      modifies this
      ensures Valid() && nextItemId == old(nextItemId) && customers == old(customers)
      ensures customerId.Some? && customerId.value !in customers ==>
                r == Err(CustomerNotFound(customerId.value)) &&
                comandas == old(comandas) && nextId == old(nextId)
      ensures customerId.None? || customerId.value in customers ==>
                r == Ok(ComandaState(old(nextId), customerName, customerId, ABERTA, Some(now), None,
                                     Some(0.0), Some(0.0), None, [])) &&
                old(nextId) !in old(comandas) && old(nextId) in comandas && fresh(comandas[old(nextId)]) &&
                comandas == old(comandas)[old(nextId) := comandas[old(nextId)]] &&
                comandas[old(nextId)].State() == r.value
    {
      if customerId.Some? && customerId.value !in customers {
        return Err(CustomerNotFound(customerId.value));
      }
      var comanda := new Comanda(nextId, customerName);
      if customerId.Some? {
        comanda.SetCustomer(customerId);
      }
      comanda.OnCreate(now);
      comandas := comandas[nextId := comanda];
      nextId := nextId + 1;
      r := Ok(comanda.State());
    }

    method AddItem(id: nat, productId: nat, quantity: int) returns (r: Result<ComandaState>)
      requires Valid() && InInt32(quantity)
      modifies this, Target(id)
      ensures Valid() && comandas == old(comandas) && nextId == old(nextId) && customers == old(customers)
      ensures catalog.products == old(catalog.products)
      ensures id !in comandas ==> r == Err(ComandaNotFound(id)) && nextItemId == old(nextItemId)
      ensures id in comandas && old(comandas[id].status) != ABERTA ==>
                r == Err(ComandaClosed(id)) && unchanged(comandas[id]) && nextItemId == old(nextItemId)
      ensures id in comandas && old(comandas[id].status) == ABERTA && productId !in catalog.products ==>
                r == Err(ProductNotFound(productId)) && unchanged(comandas[id]) &&
                nextItemId == old(nextItemId)
      ensures id in comandas && old(comandas[id].status) == ABERTA && productId in catalog.products ==>
                var before := old(comandas[id].State());
                HasQuantities(before.items) &&
                comandas[id].State() == before.(items := MergeLine(before.items, productId, quantity,
                                                                   catalog.products[productId].price,
                                                                   old(nextItemId), id)) &&
                r == Ok(comandas[id].State())
    {
      var found := FindOpenComanda(id);
      if found.Err? {
        return Err(found.error);
      }
      var comanda := found.value;
      var product := catalog.FindById(productId);
      if product.Err? {
        return Err(product.error);
      }
      MergeKeepsConsistent(comanda.State(), productId, quantity, product.value.price, nextItemId);
      MergeInto(comanda, productId, quantity, product.value.price);
      KeepsValid(id);
      r := Ok(comanda.State());
    }

    method RemoveItem(comandaId: nat, itemId: nat) returns (r: Result<ComandaState>)
      requires Valid()
      modifies Target(comandaId)
      ensures Valid()
      ensures comandaId !in comandas ==> r == Err(ComandaNotFound(comandaId))
      ensures comandaId in comandas && old(comandas[comandaId].status) != ABERTA ==>
                r == Err(ComandaClosed(comandaId)) && unchanged(comandas[comandaId])
      ensures comandaId in comandas && old(comandas[comandaId].status) == ABERTA &&
              FindLineById(old(comandas[comandaId].items), itemId).None? ==>
                r == Err(ItemNotFound(itemId)) && unchanged(comandas[comandaId])
      ensures comandaId in comandas && old(comandas[comandaId].status) == ABERTA &&
              FindLineById(old(comandas[comandaId].items), itemId).Some? ==>
                var before := old(comandas[comandaId].State());
                comandas[comandaId].State() == before.(items := WithoutLine(before.items, itemId)) &&
                r == Ok(comandas[comandaId].State())
    {
      var found := FindOpenComanda(comandaId);
      if found.Err? {
        return Err(found.error);
      }
      var comanda := found.value;
      var line := FindLineById(comanda.items, itemId);
      if line.None? {
        return Err(ItemNotFound(itemId));
      }
      RemoveLineEffect(comanda.State(), itemId);
      RemoveFirstAt(comanda.items, line.value);
      var detached := comanda.RemoveItem(comanda.items[line.value]);
      KeepsValid(comandaId);
      r := Ok(comanda.State());
    }

    /** The mutation of addItem: grows the product's line or appends a new one,
        taking the next item id only when a line is created. */
    method MergeInto(comanda: Comanda, productId: nat, quantity: int, price: real)
      requires HasQuantities(comanda.items) && InInt32(quantity)
      modifies this`nextItemId, comanda
      ensures comanda.State() == old(comanda.State()).(
                items := MergeLine(old(comanda.items), productId, quantity, price,
                                   old(nextItemId), comanda.id))
      ensures nextItemId == if FindLineByProduct(old(comanda.items), productId).None?
                            then old(nextItemId) + 1 else old(nextItemId)
    {
      var existing := FindLineByProduct(comanda.items, productId);
      if existing.Some? {
        var item := comanda.items[existing.value];
        comanda.items := comanda.items[existing.value := item.(quantity := Some(Int32Add(item.quantity.value, quantity)))];
      } else {
        var item := NewItem(nextItemId, productId, quantity, price);
        comanda.AddItem(item);
        nextItemId := nextItemId + 1;
      }
    }

    /** Overwrites both discount fields with the request's values. */
    method ApplyDiscount(id: nat, request: DiscountRequest) returns (r: Result<ComandaState>)
      requires Valid() && request.IsValid()
      modifies Target(id)
      ensures Valid()
      ensures id !in comandas ==> r == Err(ComandaNotFound(id))
      ensures id in comandas && old(comandas[id].status) != ABERTA ==>
                r == Err(ComandaClosed(id)) && unchanged(comandas[id])
      ensures id in comandas && old(comandas[id].status) == ABERTA ==>
                comandas[id].State() == old(comandas[id].State()).(
                  discountPercent := Some(request.discountPercent),
                  discountAmount := Some(request.discountAmount)) &&
                r == Ok(comandas[id].State())
    {
      var found := FindOpenComanda(id);
      if found.Err? {
        return Err(found.error);
      }
      var comanda := found.value;
      comanda.SetDiscountPercent(Some(request.discountPercent));
      comanda.SetDiscountAmount(Some(request.discountAmount));
      r := Ok(comanda.State());
    }

    /** Stores the payment method given (null when the request carried none), closes
        the comanda and stamps the closing time. */
    method Checkout(id: nat, paymentMethod: Option<PaymentMethod>, now: Time) returns (r: Result<ComandaState>)
      requires Valid()
      modifies Target(id)
      ensures Valid()
      ensures id !in comandas ==> r == Err(ComandaNotFound(id))
      ensures id in comandas && old(comandas[id].status) != ABERTA ==>
                r == Err(ComandaClosed(id)) && unchanged(comandas[id])
      ensures id in comandas && old(comandas[id].status) == ABERTA ==>
                comandas[id].State() == old(comandas[id].State()).(
                  paymentMethod := paymentMethod, status := FECHADA, closedAt := Some(now)) &&
                r == Ok(comandas[id].State())
    {
      var found := FindOpenComanda(id);
      if found.Err? {
        return Err(found.error);
      }
      var comanda := found.value;
      comanda.SetPaymentMethod(paymentMethod);
      comanda.SetStatus(FECHADA);
      comanda.SetClosedAt(Some(now));
      r := Ok(comanda.State());
    }

    /** Closes the comanda, keeping a payment method already set and choosing CASH
        when there is none. */
    method Close(id: nat, now: Time) returns (r: Result<ComandaState>)
      requires Valid()
      modifies Target(id)
      ensures Valid()
      ensures id !in comandas ==> r == Err(ComandaNotFound(id))
      ensures id in comandas && old(comandas[id].status) != ABERTA ==>
                r == Err(ComandaClosed(id)) && unchanged(comandas[id])
      ensures id in comandas && old(comandas[id].status) == ABERTA ==>
                var before := old(comandas[id].State());
                comandas[id].State() == before.(
                  paymentMethod := if before.paymentMethod.None? then Some(CASH) else before.paymentMethod,
                  status := FECHADA, closedAt := Some(now)) &&
                r == Ok(comandas[id].State())
    {
      var found := FindOpenComanda(id);
      if found.Err? {
        return Err(found.error);
      }
      var comanda := found.value;
      if comanda.paymentMethod.None? {
        comanda.SetPaymentMethod(Some(CASH));
      }
      comanda.SetStatus(FECHADA);
      comanda.SetClosedAt(Some(now));
      r := Ok(comanda.State());
    }

    method SetPaymentMethod(id: nat, paymentMethod: PaymentMethod) returns (r: Result<ComandaState>)
      requires Valid()
      modifies Target(id)
      ensures Valid()
      ensures id !in comandas ==> r == Err(ComandaNotFound(id))
      ensures id in comandas && old(comandas[id].status) != ABERTA ==>
                r == Err(ComandaClosed(id)) && unchanged(comandas[id])
      ensures id in comandas && old(comandas[id].status) == ABERTA ==>
                comandas[id].State() == old(comandas[id].State()).(paymentMethod := Some(paymentMethod)) &&
                r == Ok(comandas[id].State())
    {
      var found := FindOpenComanda(id);
      if found.Err? {
        return Err(found.error);
      }
      var comanda := found.value;
      comanda.SetPaymentMethod(Some(paymentMethod));
      r := Ok(comanda.State());
    }

    /** Removes the comanda, open or closed, together with its lines. */
    method Delete(id: nat) returns (r: Result<()>)
      requires Valid()
      modifies this
      ensures Valid() && nextId == old(nextId) && nextItemId == old(nextItemId) && customers == old(customers)
      ensures id !in old(comandas) ==> r == Err(ComandaNotFound(id)) && comandas == old(comandas)
      ensures id in old(comandas) ==> r == Ok(()) && comandas == old(comandas) - {id}
    {
      if id !in comandas {
        return Err(ComandaNotFound(id));
      }
      comandas := comandas - {id};
      r := Ok(());
    }
  }
}
