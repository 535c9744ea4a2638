/** Client code that uses the services only through their contracts: the end-to-end
    flow of a comanda and the stock-adjustment flow. */
module Scenarios {
  import opened Outcomes
  import opened ComandaModel
  import opened DiscountRequests
  import opened ComandaServices
  import Products

  /** Open a comanda for Maria and add 2 and then 3 units of a product priced 10.00:
      one line of 5 units, subtotal 50.00. */
  method ComandaLifecycle() {
    var catalog := new Products.ProductService();
    var blank := Products.Product(0, "", None, 0.0, None, 5, true);
    var p1 := catalog.Create(Products.ProductRequest("P1", None, 10.0, None, 5, Some(true)), blank);
    var service := new ComandaService(catalog, {});

    var created := service.Create("Maria", None, 100);
    var id := created.value.id;
    assert id in service.comandas && service.comandas[id].State() == created.value;
    assert p1.id in catalog.products && catalog.products[p1.id].price == 10.0;

    var r := service.AddItem(id, p1.id, 2);
    assert r.value.items == [Item(1, p1.id, Some(2), Some(10.0), Some(id))];
    r := service.AddItem(id, p1.id, 3);
    assert r.value.items == [Item(1, p1.id, Some(5), Some(10.0), Some(id))];
    SumOfLinesSingle(r.value.items[0]);
    assert r.value.Subtotal() == 50.0;
  }

  /** On an open comanda whose one line is 5 units at 10.00: take 10% and 2.00 off
      (total 43.00) and pay in cash. */
  method DiscountAndCheckout(service: ComandaService, id: nat, now: Time)
    requires service.Valid() && id in service.comandas && service.comandas[id].status == ABERTA
    requires |service.comandas[id].items| == 1
    requires service.comandas[id].items[0].quantity == Some(5)
    requires service.comandas[id].items[0].unitPrice == Some(10.0)
    modifies service.comandas[id]
  {
    var r := service.ApplyDiscount(id, DiscountRequest(10.0, 2.0));
    SumOfLinesSingle(r.value.items[0]);
    assert r.value.Total() == 43.0;

    r := service.Checkout(id, Some(CASH), now);
    assert r.value.status == FECHADA && r.value.paymentMethod == Some(CASH);
    assert r.value.closedAt == Some(now);
  }

  /** Once closed, a comanda refuses new items and a second close, and keeps its
      closing time. */
  method ClosedComandaRefusesChanges(service: ComandaService, id: nat, productId: nat, now: Time)
    requires service.Valid() && id in service.comandas && service.comandas[id].status == FECHADA
    modifies service, service.comandas[id]
  {
    var closedAt := service.comandas[id].closedAt;
    var r := service.AddItem(id, productId, 1);
    assert r == Err(ComandaClosed(id));
    var again := service.Close(id, now);
    assert again == Err(ComandaClosed(id)) && service.comandas[id].closedAt == closedAt;
  }

  /** A product with 5 units: taking 5 leaves 0; taking 1 more is refused and leaves 0. */
  method StockAdjustment() {
    var catalog := new Products.ProductService();
    var blank := Products.Product(0, "", None, 0.0, None, 5, true);
    var p := catalog.Create(Products.ProductRequest("P", None, 1.0, None, 5, Some(true)), blank);
    var r := catalog.AdjustStock(p.id, -5);
    assert r.Ok? && r.value.stockQuantity == 0;
    r := catalog.AdjustStock(p.id, -1);
    assert r == Err(InsufficientStock(p.id, 0, -1));
    assert catalog.products[p.id].stockQuantity == 0;
  }
}
