# Comandas and catalog: a Dafny model

This project models the core of a small Spring market back end. A *comanda* is an
order tab. It is opened for a customer name, and optionally linked to a registered
customer. While it is open (status `ABERTA`), product lines are added and removed and
a percentage and a fixed discount are applied. It is then closed (status `FECHADA`)
with a payment method. A closed comanda refuses every further change. The product
catalog keeps the products with their price and stock. The stock changes only
through whole-field updates and a guarded signed adjustment.

The model has six modules:

- `JavaInts` (java_int.dfy): Java `int` values and their wrapping addition.
- `Outcomes` (outcomes.dfy): `Option`, `Result` and the `Error` datatype. `Error`
  has one constructor per exception the services throw: comanda, product, customer
  or item not found, comanda closed, insufficient stock, and an invalid price range.
- `ComandaModel` (comanda.dfy): the comanda aggregate.
  - `Item` is a comanda line. It is a value. Its quantity, unit price and owning
    comanda are optional, because they are nullable in the entity.
  - `Comanda` is a class with the entity's mutable fields.
  - `ComandaState` is a snapshot of those fields. It defines the subtotal (the sum of
    the line totals) and the clamped total. It also defines `Consistent`, the
    invariant the service keeps:
    - `closedAt` is set exactly when the comanda is closed;
    - there is at most one line per product;
    - item ids are distinct;
    - every line points back to its comanda and has a unit price and a quantity
      that is a Java `int`.
- `DiscountRequests` (discount_request.dfy): the discount request, its defaults and
  its validation bounds.
- `Products` (products.dfy):
  - the price-range guard of the product listing;
  - the stock rule of `adjustStock`, in Java 32-bit `int` arithmetic;
  - `ProductService`, a class holding the products by id.
- `ComandaServices` (comanda_service.dfy):
  - the add-item merge, written as functions on line sequences, with lemmas about
    them;
  - `ComandaService`, a class holding the comandas by id, the id counters, the
    registered customer ids and the catalog.
  - Every service method returns `Err` for the same cases, and in the same order, as
    the Java code: first a missing comanda, then a closed one, then the operation's
    own errors. On error, nothing changes.

`Scenarios` (scenarios.dfy) is client code that uses only the contracts. It opens a
comanda and adds one product twice, which gives one line of 5 units and a subtotal of
50. It takes a comanda with that line through 10% and 2.00 off (total 43) to
checkout. It also
shows that a closed comanda refuses items and a second close, and that the stock
cannot be taken below zero.

`adjustStock` computes the projected stock as a Java `int`. `Int32Add` makes that
wrap-around explicit. `ProjectedStockNegative` shows what follows: an increase that
pushes the stock past 2^31 - 1 wraps to a negative value, and is refused as
insufficient stock. `AdjustStock` models this as written.

`addItem` grows an existing line with the same Java `int` addition.
AddComandaItemRequest declares `@Min(1)` on the quantity, which only ComandaController
enforces (`@Valid`). CartController passes the quantity unvalidated, so a line can
also be opened with 0 units or driven below 1 by a negative request
(`UnvalidatedQuantities`). Nothing bounds the quantity from above, nor the line's
accumulated total. `MergeLine` therefore wraps the quantity with
`Int32Add`, as the Java code does. `MergeKeepsPositive` states the consequence:
with requests of at least one unit, every line keeps at least one unit exactly when
the line's new sum does not pass 2^31 - 1. `QuantityOverflowWraps` shows a line at 2^31 - 1 units that receives one
more unit and ends at -2^31, with a negative subtotal. For this reason the invariant
`Consistent` asks only that a quantity be a Java `int`, not that it be at least 1.

## Model

| member | source | states |
|---|---|---|
| ComandaModel.NewItem | src/main/java/com/Captando/demo/model/ComandaItem.java:28-32 | a new line carries exactly the given id, product, quantity and unit price, belongs to no comanda yet, and its line total is price times quantity |
| ComandaModel.LineTotal | src/main/java/com/Captando/demo/model/ComandaItem.java:70-75 | a line with no price or no quantity totals 0; a line with a non-negative price and quantity has a non-negative total |
| ComandaModel.SumOfLines | src/main/java/com/Captando/demo/model/Comanda.java:148-152 | the subtotal: the line totals added in list order; what it satisfies is stated by SumOfLinesNonNegative, SumOfLinesConcat and the lemmas after it |
| ComandaModel.SumOfLinesNonNegative | src/main/java/com/Captando/demo/model/Comanda.java:148-152 | the subtotal of lines with non-negative price and quantity is not negative |
| ComandaModel.SumOfLinesConcat | src/main/java/com/Captando/demo/model/Comanda.java:148-152 | the subtotal of two concatenated line lists is the sum of their subtotals |
| ComandaModel.SumOfLinesSingle | src/main/java/com/Captando/demo/model/Comanda.java:148-152 | the subtotal of one line is its line total |
| ComandaModel.SumOfLinesAppend | src/main/java/com/Captando/demo/model/Comanda.java:130-133 | appending a line raises the subtotal by that line's total |
| ComandaModel.SumOfLinesRemoveAt | src/main/java/com/Captando/demo/model/Comanda.java:135-138 | removing the line at k lowers the subtotal by exactly that line's total |
| ComandaModel.SumOfLinesUpdate | src/main/java/com/Captando/demo/model/ComandaItem.java:58-60 | replacing the line at k changes the subtotal by the new total minus the old one |
| ComandaModel.SumOfLinesAddQuantity | src/main/java/com/Captando/demo/service/ComandaServiceImpl.java:76-78 | raising the quantity of line k raises the subtotal by the added quantity at that line's unit price |
| ComandaModel.LineTotalAddQuantity | src/main/java/com/Captando/demo/model/ComandaItem.java:58-75 | raising a line's quantity raises its total by the added quantity times its unit price |
| ComandaModel.ClampedTotal | src/main/java/com/Captando/demo/model/Comanda.java:140-146 | the total is never negative, whatever the discounts |
| ComandaModel.TotalFormula | src/main/java/com/Captando/demo/model/Comanda.java:140-146 | the total is max(0, subtotal * (1 - percent/100) - amount), with a null discount counting as 0 |
| ComandaModel.TotalWithinSubtotal | src/main/java/com/Captando/demo/model/Comanda.java:140-146 | with a non-negative subtotal, a percent in [0, 100] and a non-negative amount, the total lies between 0 and the subtotal |
| ComandaModel.ComandaState.Total | src/main/java/com/Captando/demo/model/Comanda.java:140-146 | the total of a comanda is ClampedTotal of its subtotal and its two discounts; TotalFormula, TotalWithinSubtotal and ValidDiscountBoundsTotal state its properties |
| ComandaModel.ComandaState.Consistent | src/main/java/com/Captando/demo/service/ComandaServiceImpl.java:72-127 | the invariant every service operation keeps: closedAt is set exactly when the comanda is FECHADA, one line per product, distinct item ids, every line attached with a Java int quantity and a price; ComandaService.Valid requires it of every stored comanda |
| ComandaModel.RemoveFirst | src/main/java/com/Captando/demo/model/Comanda.java:136 | List.remove leaves the list unchanged when the element is absent and makes it exactly one element shorter when present |
| ComandaModel.RemoveFirstAt | src/main/java/com/Captando/demo/model/Comanda.java:136 | when no earlier line equals line k, List.remove of line k deletes exactly position k and keeps the order of the rest |
| ComandaModel.Comanda.constructor | src/main/java/com/Captando/demo/model/Comanda.java:26-47 | a new comanda has the given name, status ABERTA, both discounts 0.0, no customer, timestamps, payment method or lines; it is consistent and totals 0 |
| ComandaModel.Comanda.OnCreate | src/main/java/com/Captando/demo/model/Comanda.java:49-52 | the creation time is set to the given instant and nothing else changes |
| ComandaModel.Comanda.SetCustomer | src/main/java/com/Captando/demo/model/Comanda.java:78-80 | only the customer link changes |
| ComandaModel.Comanda.SetStatus | src/main/java/com/Captando/demo/model/Comanda.java:70-72 | only the status changes |
| ComandaModel.Comanda.SetClosedAt | src/main/java/com/Captando/demo/model/Comanda.java:94-96 | only the closing time changes |
| ComandaModel.Comanda.SetDiscountPercent | src/main/java/com/Captando/demo/model/Comanda.java:102-104 | the percent becomes the given value, or 0.0 for null; nothing else changes |
| ComandaModel.Comanda.SetDiscountAmount | src/main/java/com/Captando/demo/model/Comanda.java:110-112 | the amount becomes the given value, or 0.0 for null; nothing else changes |
| ComandaModel.Comanda.SetPaymentMethod | src/main/java/com/Captando/demo/model/Comanda.java:118-120 | only the payment method changes |
| ComandaModel.Comanda.AddItem | src/main/java/com/Captando/demo/model/Comanda.java:130-133 | the line is linked to this comanda and appended at the end; the subtotal grows by its line total; nothing else changes |
| ComandaModel.Comanda.RemoveItem | src/main/java/com/Captando/demo/model/Comanda.java:135-138 | the first structurally equal line is removed from the list (Java removes by identity; see Left out) and the removed line is returned unlinked; nothing else changes |
| DiscountRequests.DiscountRequest.IsValid | src/main/java/com/Captando/demo/dto/ApplyComandaDiscountRequest.java:9-14 | the validation bounds: percent in [0, 100] and amount not negative; ApplyDiscount requires them and ValidDiscountBoundsTotal shows what they guarantee |
| DiscountRequests.DefaultRequest | src/main/java/com/Captando/demo/dto/ApplyComandaDiscountRequest.java:11-17 | the no-argument request has both fields at 0.0: it passes validation and equals what the two-argument constructor builds from two nulls |
| DiscountRequests.NewDiscountRequest | src/main/java/com/Captando/demo/dto/ApplyComandaDiscountRequest.java:19-22 | each null field becomes 0.0 on its own and each given value is kept |
| DiscountRequests.ValidDiscountBoundsTotal | src/main/java/com/Captando/demo/dto/ApplyComandaDiscountRequest.java:9-14 | applying a request within its validation bounds to a comanda with non-negative lines keeps the subtotal and puts the total between 0 and the subtotal |
| JavaInts.Int32Add | src/main/java/com/Captando/demo/service/ProductServiceImpl.java:97 | the Java int sum is in the 32-bit range, congruent to the exact sum modulo 2^32, and equal to it when the exact sum fits |
| JavaInts.Int32Sum | src/main/java/com/Captando/demo/service/ComandaServiceImpl.java:78 | repeated Java int additions to a running quantity stay in the int range, agree with the exact sum modulo 2^32, and equal it when everything is non-negative and the exact sum fits |
| Products.CheckPriceRange | src/main/java/com/Captando/demo/service/ProductServiceImpl.java:26-28 | the listing fails only with the invalid-price-range error |
| Products.PriceRangeGuard | src/main/java/com/Captando/demo/service/ProductServiceImpl.java:26-50 | the guard accepts the bounds exactly when some price passes both the minimum and maximum filters |
| Products.StockAfter | src/main/java/com/Captando/demo/service/ProductServiceImpl.java:97-102 | from a non-negative stock, one adjustment leaves a non-negative int: the true sum when that is a non-negative int, the old stock otherwise |
| Products.StockAfterAll | src/main/java/com/Captando/demo/service/ProductServiceImpl.java:93-104 | a series of adjustStock calls applied in order; StockNeverNegative states what it satisfies |
| Products.StockNeverNegative | src/main/java/com/Captando/demo/service/ProductServiceImpl.java:93-104 | starting from a non-negative stock, no series of adjustments makes the stock negative |
| Products.ProjectedStockNegative | src/main/java/com/Captando/demo/service/ProductServiceImpl.java:97-99 | the projected stock is refused exactly when the true sum is negative or overflows 2^31 - 1 |
| Products.ProductService.constructor | src/main/java/com/Captando/demo/service/ProductServiceImpl.java:19-21 | the catalog starts empty and valid |
| Products.ProductService.FindById | src/main/java/com/Captando/demo/service/ProductServiceImpl.java:61-65 | returns the stored product, or product-not-found |
| Products.ProductService.Create | src/main/java/com/Captando/demo/service/ProductServiceImpl.java:69-73 | only name, description and price are copied from the request onto a fresh entity (category, stock and active keep the entity's defaults); it is stored under a new id; no other product changes |
| Products.ProductService.Update | src/main/java/com/Captando/demo/service/ProductServiceImpl.java:77-89 | every editable field is overwritten; active is true only for an explicit true; only that product changes; a missing id gives product-not-found |
| Products.ProductService.AdjustStock | src/main/java/com/Captando/demo/service/ProductServiceImpl.java:93-104 | the stock becomes stock + delta when that is a non-negative int; otherwise insufficient-stock with the old stock and the delta, and nothing changes; a missing id gives product-not-found |
| Products.ProductService.Delete | src/main/java/com/Captando/demo/service/ProductServiceImpl.java:108-112 | removes exactly that product, or product-not-found |
| ComandaServices.AvailablePaymentMethodsComplete | src/main/java/com/Captando/demo/service/ComandaServiceImpl.java:138-141 | every payment method is listed, each exactly once |
| ComandaServices.AvailablePaymentMethods | src/main/java/com/Captando/demo/service/ComandaServiceImpl.java:138-141 | the names of the payment methods; AvailablePaymentMethodsComplete states that each appears exactly once |
| ComandaServices.FindLineByProduct | src/main/java/com/Captando/demo/service/ComandaServiceImpl.java:72-77 | returns the first line for the product, or none when no line has it |
| ComandaServices.FindLineById | src/main/java/com/Captando/demo/service/ComandaServiceImpl.java:90-93 | returns the first line with the item id, or none when no line has it |
| ComandaServices.MergeLine | src/main/java/com/Captando/demo/service/ComandaServiceImpl.java:72-82 | addItem's change to the lines: an existing line keeps its length and position, a missing one is appended at the end for the product, and every line of another product is untouched |
| ComandaServices.MergeKeepsConsistent | src/main/java/com/Captando/demo/service/ComandaServiceImpl.java:72-82 | adding a Java int quantity keeps the comanda consistent (one line per product, distinct ids, attached lines with a Java int quantity and a price) and the item ids below the counter |
| ComandaServices.MergeSubtotal | src/main/java/com/Captando/demo/service/ComandaServiceImpl.java:72-82 | adding an item changes the subtotal by the quantity the line actually gains (the wrapped Java int sum less what it held) times the captured price; when the sum fits, that is the requested quantity times the captured price |
| ComandaServices.MergeAccumulates | src/main/java/com/Captando/demo/service/ComandaServiceImpl.java:76-82 | after adding, the product has a line, its quantity is the Java int sum of the earlier quantity and the request's, its price is the one already captured (the current price only for a new line), and there is still one line per product |
| ComandaServices.MergeKeepsPositive | src/main/java/com/Captando/demo/service/ComandaServiceImpl.java:76-78 | with lines and a request of at least one unit, every line still has at least one unit after adding exactly when the product's new sum does not pass 2^31 - 1 |
| ComandaServices.QuantityOverflowWraps | src/main/java/com/Captando/demo/service/ComandaServiceImpl.java:78 | a line at 2^31 - 1 units that receives one more ends at -2^31 units with a negative subtotal |
| ComandaServices.UnvalidatedQuantities | src/main/java/com/Captando/demo/controller/CartController.java:54 | without validation, a request of 0 units opens a line of 0 units, and a request of -3 units takes a line of 2 units to -1 |
| ComandaServices.MergeAll | src/main/java/com/Captando/demo/service/ComandaServiceImpl.java:72-82 | a series of addItem calls for one product applied in order, each one MergeLine; MergeAllAccumulates states what it satisfies |
| ComandaServices.MergeAllAccumulates | src/main/java/com/Captando/demo/service/ComandaServiceImpl.java:72-82 | any series of additions of one product leaves exactly one line for it, holding Int32Sum of what it held and the quantities (their exact sum when it fits) at the price captured first |
| ComandaServices.DeleteLineKeepsConsistent | src/main/java/com/Captando/demo/model/Comanda.java:135-138 | deleting one line keeps the comanda consistent |
| ComandaServices.WithoutLine | src/main/java/com/Captando/demo/service/ComandaServiceImpl.java:88-94 | removeItem's change to the lines: one line fewer when the id is found, and no line that was not there before; RemoveLineEffect states exactly which line goes |
| ComandaServices.RemoveLineEffect | src/main/java/com/Captando/demo/service/ComandaServiceImpl.java:88-94 | removing an item deletes exactly the line with that id, keeps the others in order, and lowers the subtotal by its line total; an unknown id leaves the lines unchanged |
| ComandaServices.ComandaService.constructor | src/main/java/com/Captando/demo/service/ComandaServiceImpl.java:32-40 | the service starts with no comandas, both counters at 1, and the given catalog and customers |
| ComandaServices.ComandaService.FindById | src/main/java/com/Captando/demo/service/ComandaServiceImpl.java:48-51 | returns the comanda's state, or comanda-not-found |
| ComandaServices.ComandaService.FindOpenComanda | src/main/java/com/Captando/demo/service/ComandaServiceImpl.java:151-162 | comanda-not-found for a missing id, comanda-closed for a comanda that is not ABERTA, otherwise the comanda |
| ComandaServices.ComandaService.Create | src/main/java/com/Captando/demo/service/ComandaServiceImpl.java:55-63 | an unknown customer id gives customer-not-found and nothing is stored; otherwise a new open comanda, linked to the customer when one is given, is stored under a new id with its creation time |
| ComandaServices.ComandaService.AddItem | src/main/java/com/Captando/demo/service/ComandaServiceImpl.java:67-84 | the errors come in order (not found, closed, product not found); otherwise the lines become MergeLine of the old ones, with the Java int sum; the stock is never touched; the service stays valid |
| ComandaServices.ComandaService.MergeInto | src/main/java/com/Captando/demo/service/ComandaServiceImpl.java:76-82 | the comanda's lines become MergeLine of the old lines, growing the line in place with the Java int sum; the item counter advances exactly when a new line is created |
| ComandaServices.ComandaService.RemoveItem | src/main/java/com/Captando/demo/service/ComandaServiceImpl.java:88-96 | the errors come in order (not found, closed, item not found); otherwise exactly that line is removed; the service stays valid |
| ComandaServices.ComandaService.ApplyDiscount | src/main/java/com/Captando/demo/service/ComandaServiceImpl.java:100-105 | on an open comanda, both discount fields are overwritten with the request's values, so the latest request wins; nothing else changes |
| ComandaServices.ComandaService.Checkout | src/main/java/com/Captando/demo/service/ComandaServiceImpl.java:109-115 | on an open comanda, stores the given payment method (possibly none), sets FECHADA and the closing time |
| ComandaServices.ComandaService.Close | src/main/java/com/Captando/demo/service/ComandaServiceImpl.java:119-127 | on an open comanda, keeps a payment method already set or chooses CASH, then sets FECHADA and the closing time |
| ComandaServices.ComandaService.SetPaymentMethod | src/main/java/com/Captando/demo/service/ComandaServiceImpl.java:131-135 | on an open comanda, only the payment method changes |
| ComandaServices.ComandaService.Delete | src/main/java/com/Captando/demo/service/ComandaServiceImpl.java:145-149 | removes the comanda whatever its status, or comanda-not-found |

## Left out

- HTTP controllers, the mapping of exceptions to status codes, and the response DTOs are not part of this model. The service methods return the comanda's state, or the product, instead of a response object.
- Persistence is reduced to maps keyed by id. JPA, transactions, paging, cascades and concurrent access are not modelled.
- Timestamps from `LocalDateTime.now()` are parameters of the operations.
- `Double` values are modelled as exact reals. Floating-point rounding in line totals, sums and discounts is not captured.
- The listing's name, category and active filters, and its paging, are not modelled; only the price bounds and their guard are.
- Customers are a set of registered ids. CustomerServiceImpl is not part of this model.
- Products.ProductService.Create: Product.java is not part of this model, so the defaults of a new product entity are unknown. Create takes them as its `blank` argument, and requires the default stock to be a non-negative Java int.
- Item ids are assigned by a counter when the line is added, where the database assigns them when the comanda is saved.
- Items are values in the comanda's list. A line's `setQuantity` is modelled as replacing that element of the list; sharing of item objects between lists is not captured. ComandaItem does not override `equals`, so `List.remove` in `Comanda.removeItem` removes by identity, while `ComandaModel.RemoveFirst` removes the first structurally equal line. Inside the service the two agree, because item ids are distinct (`Consistent`).
- `setUnitPrice`, `setProduct`, `setCustomerName`, `setCreatedAt` and `setItems` are never called by the services and are not modelled.
- The no-argument constructors `Comanda()` and `ComandaItem()`, and those of the other request DTOs, are not modelled. Only `ApplyComandaDiscountRequest()` is modelled, as `DefaultRequest`.
- PaymentMethod.java is not part of this model. The six payment methods (`CASH`, `PIX`, `DEBIT_CARD`, `CREDIT_CARD`, `FOOD_VOUCHER`, `TRANSFER`) and their listing order are assumed; the Java code names only `CASH`.
- ComandaServices.ComandaService.AddItem: takes the product id and the quantity as a `nat` and a Java `int`, so it does not model a null product id or a null quantity. CartController (CartController.java:54) calls the service without `@Valid`, so either can reach it there: a null product id then reaches the repository lookup, and a null quantity either fails in the sum on an existing line or is stored on a new line.
- ComandaServices.ComandaService.ApplyDiscount: requires a request within the bounds ApplyComandaDiscountRequest declares, as the validated controller guarantees; an out-of-range request is not modelled.
- Products.ProductService.AdjustStock: requires a delta in the Java `int` range. The model does not impose the request's lower bound of -9999.
- ComandaModel.ComandaState.Consistent: does not include a quantity of at least 1 for every line. The wrapping sum in addItem can break it (MergeKeepsPositive states when it holds), and so can CartController, which passes unvalidated quantities of 0 or less straight to addItem (UnvalidatedQuantities).
- Products.ProductService.Update: requires a stock between 0 and 2^31 - 1, as the validated request carries.
- The name/description/category text validation of ProductRequest is not modelled.
