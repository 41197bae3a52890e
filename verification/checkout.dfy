/** The checkout page: validation of the contact form, and the submission
    that writes an order, its lines and the new stock levels to the hosted
    database one request at a time. Each database answer is taken from a
    `Faults` schedule, so every path through the submission can be stated. */
module Checkout {
  import opened Types
  import CartStore

  // ------------------------------------------------------------- validation

  const MinNameLength := 2
  const MinPhoneLength := 10
  const MinAddressLength := 10

  const NameTooShort := "Name must be at least 2 characters"
  const PhoneTooShort := "Phone number must be at least 10 characters"
  const AddressTooShort := "Address must be at least 10 characters"

  /** The form passes the schema: every field is long enough. */
  predicate ValidForm(form: CheckoutForm)
  {
    |form.customerName| >= MinNameLength
    && |form.customerPhone| >= MinPhoneLength
    && |form.customerAddress| >= MinAddressLength
  }

  /** The messages shown under the fields, in form order. */
  function FormErrors(form: CheckoutForm): (errs: seq<string>)
    ensures errs == [] <==> ValidForm(form)
    ensures NameTooShort in errs <==> |form.customerName| < MinNameLength
    ensures PhoneTooShort in errs <==> |form.customerPhone| < MinPhoneLength
    ensures AddressTooShort in errs <==> |form.customerAddress| < MinAddressLength
    ensures |errs| <= 3
  {
    (if |form.customerName| < MinNameLength then [NameTooShort] else [])
    + (if |form.customerPhone| < MinPhoneLength then [PhoneTooShort] else [])
    + (if |form.customerAddress| < MinAddressLength then [AddressTooShort] else [])
  }

  // ------------------------------------------------------------ order lines

  /** A row written to `orders`. */
  datatype NewOrder = NewOrder(
    customerName: string,
    customerPhone: string,
    customerAddress: string,
    totalAmount: real,
    status: OrderStatus)

  /** A row written to `order_items`. */
  datatype NewOrderItem = NewOrderItem(orderId: string, productId: string, quantity: int, price: real)

  /** The order row for a submitted form and the total shown on the page. */
  function OrderRow(form: CheckoutForm, totalPrice: real): (o: NewOrder)
    ensures o.status == Pending && o.totalAmount == totalPrice
    ensures o.customerName == form.customerName
    ensures o.customerPhone == form.customerPhone
    ensures o.customerAddress == form.customerAddress
  {
    NewOrder(form.customerName, form.customerPhone, form.customerAddress, totalPrice, Pending)
  }

  /** `items.map(...)`: one order line per cart line. */
  function OrderLine(orderId: string, item: CartItem): NewOrderItem
  {
    NewOrderItem(orderId, item.product.id, item.quantity, item.product.price)
  }

  function BuildOrderItems(orderId: string, items: seq<CartItem>): (rows: seq<NewOrderItem>)
    ensures |rows| == |items|
    ensures forall i :: 0 <= i < |items| ==>
      rows[i].orderId == orderId && rows[i].productId == items[i].product.id
      && rows[i].quantity == items[i].quantity && rows[i].price == items[i].product.price
    decreases |items|
  {
    if items == [] then [] else [OrderLine(orderId, items[0])] + BuildOrderItems(orderId, items[1..])
  }

  /** Sum of price times quantity over the written order lines. */
  function RowsTotal(rows: seq<NewOrderItem>): real
    decreases |rows|
  {
    if rows == [] then 0.0 else rows[0].price * rows[0].quantity as real + RowsTotal(rows[1..])
  }

  /** Sum of the line totals shown in the order summary. */
  function CartLinesTotal(items: seq<CartItem>): real
    decreases |items|
  {
    if items == [] then 0.0 else items[0].product.price * items[0].quantity as real + CartLinesTotal(items[1..])
  }

  /** The written order lines add up to the line totals of the cart summary. */
  lemma {:induction false} OrderItemsKeepCartTotal(orderId: string, items: seq<CartItem>)
    ensures RowsTotal(BuildOrderItems(orderId, items)) == CartLinesTotal(items)
    decreases |items|
  {
    if items != [] {
      var rows := BuildOrderItems(orderId, items);
      assert rows[1..] == BuildOrderItems(orderId, items[1..]);
      OrderItemsKeepCartTotal(orderId, items[1..]);
    }
  }

  /** Two units at 10.00 and one at 5.00 become two order lines worth 25.00. */
  lemma {:induction false} TwoLineCartExample(orderId: string)
    ensures var a := Product("a", "A", None, 10.0, None, None, 5, true, "", "");
      var b := Product("b", "B", None, 5.0, None, None, 5, true, "", "");
      var rows := BuildOrderItems(orderId, [CartItem(a, 2), CartItem(b, 1)]);
      |rows| == 2 && RowsTotal(rows) == 25.0
  {
    var a := Product("a", "A", None, 10.0, None, None, 5, true, "", "");
    var b := Product("b", "B", None, 5.0, None, None, 5, true, "", "");
    var items := [CartItem(a, 2), CartItem(b, 1)];
    OrderItemsKeepCartTotal(orderId, items);
    assert items[1..] == [CartItem(b, 1)];
    assert [CartItem(b, 1)][1..] == [];
    assert CartLinesTotal([CartItem(b, 1)]) == 5.0;
    assert CartLinesTotal(items) == 20.0 + 5.0;
  }

  // ------------------------------------------------------------ stock writes

  /** The stock level written for a cart line: the level in the line's
      product snapshot minus the quantity, with no lower bound. */
  function Remaining(item: CartItem): int
  {
    item.product.stockQuantity - item.quantity
  }

  /** The stock table after the updates for the first `k` cart lines, in
      cart order. An update for an id the table does not hold changes
      nothing. */
  function StockAfter(stock: map<string, int>, items: seq<CartItem>, k: nat): (r: map<string, int>)
    requires k <= |items|
    ensures r.Keys == stock.Keys
    decreases k
  {
    if k == 0 then stock
    else
      var prev := StockAfter(stock, items, k - 1);
      var id := items[k - 1].product.id;
      if id in prev then prev[id := Remaining(items[k - 1])] else prev
  }

  /** A product none of the first `k` lines refers to keeps its level. */
  lemma {:induction false} StockAfterUntouched(stock: map<string, int>, items: seq<CartItem>, k: nat, id: string)
    requires k <= |items| && id in stock
    requires forall j :: 0 <= j < k ==> items[j].product.id != id
    ensures StockAfter(stock, items, k)[id] == stock[id]
    decreases k
  {
    if k > 0 {
      StockAfterUntouched(stock, items, k - 1, id);
    }
  }

  /** The level written for a product is the snapshot level minus the
      quantity of its last line, whatever the table held before. */
  lemma {:induction false} StockAfterLastWrite(stock: map<string, int>, items: seq<CartItem>, k: nat, j: nat)
    requires j < k <= |items| && items[j].product.id in stock
    requires forall j' :: j < j' < k ==> items[j'].product.id != items[j].product.id
    ensures StockAfter(stock, items, k)[items[j].product.id] == Remaining(items[j])
    decreases k
  {
    if j < k - 1 {
      StockAfterLastWrite(stock, items, k - 1, j);
    }
  }

  /** What the table held before does not matter for a product in the
      cart: two tables with the same products end with the same level. */
  lemma {:induction false} StockIgnoresCurrentLevel(s1: map<string, int>, s2: map<string, int>, items: seq<CartItem>, k: nat)
    requires k <= |items| && s1.Keys == s2.Keys
    ensures forall j :: 0 <= j < k && items[j].product.id in s1 ==>
      StockAfter(s1, items, k)[items[j].product.id] == StockAfter(s2, items, k)[items[j].product.id]
    decreases k
  {
    if k > 0 {
      StockIgnoresCurrentLevel(s1, s2, items, k - 1);
      forall j | 0 <= j < k && items[j].product.id in s1
        ensures StockAfter(s1, items, k)[items[j].product.id] == StockAfter(s2, items, k)[items[j].product.id]
      {
        if items[j].product.id != items[k - 1].product.id {
          assert j < k - 1;
        }
      }
    }
  }

  function Widget(stockQuantity: int): Product
  {
    Product("p1", "Widget", None, 4.0, None, None, stockQuantity, true, "", "")
  }

  /** A quantity larger than the snapshot's stock is written as a negative
      level. */
  lemma {:induction false} StockCanGoNegative()
    ensures StockAfter(map["p1" := 1], [CartItem(Widget(1), 3)], 1)["p1"] == -2
  {
    var items := [CartItem(Widget(1), 3)];
    assert StockAfter(map["p1" := 1], items, 0) == map["p1" := 1];
  }

  /** Two checkouts started from the same snapshot of a product with 10 in
      stock, each buying 1, leave 9 and not 8: the second write overwrites
      the first. */
  lemma {:induction false} ConcurrentCheckoutsLoseAnUpdate()
    ensures var first := StockAfter(map["p1" := 10], [CartItem(Widget(10), 1)], 1);
      StockAfter(first, [CartItem(Widget(10), 1)], 1)["p1"] == 9
  {
    var items := [CartItem(Widget(10), 1)];
    var first := StockAfter(map["p1" := 10], items, 1);
    assert StockAfter(map["p1" := 10], items, 0) == map["p1" := 10];
    assert first == map["p1" := 9];
    assert StockAfter(first, items, 0) == first;
  }

  // --------------------------------------------------------------- database

  /** The three tables the submission writes to. Only the stock level of a
      product is kept. */
  class Database {
    var orders: map<string, NewOrder>
    var orderItems: seq<NewOrderItem>
    var stock: map<string, int>

    constructor (stock0: map<string, int>)
      ensures orders == map[] && orderItems == [] && stock == stock0
    {
      orders := map[];
      orderItems := [];
      stock := stock0;
    }

    /** `insert` into `orders` under the id the database assigned. */
    method InsertOrder(id: string, row: NewOrder)
      modifies this
      ensures orders == old(orders)[id := row]
      ensures orderItems == old(orderItems) && stock == old(stock)
    {
      orders := orders[id := row];
    }

    /** `insert` of a batch into `order_items`. */
    method InsertOrderItems(rows: seq<NewOrderItem>)
      modifies this
      ensures orderItems == old(orderItems) + rows
      ensures orders == old(orders) && stock == old(stock)
    {
      orderItems := orderItems + rows;
    }

    /** `update products set stock_quantity = level where id = productId`:
        no row changes when the id is unknown. */
    method UpdateStock(productId: string, level: int)
      modifies this
      ensures stock == if productId in old(stock) then old(stock)[productId := level] else old(stock)
      ensures orders == old(orders) && orderItems == old(orderItems)
    {
      if productId in stock {
        stock := stock[productId := level];
      }
    }
  }

  // -------------------------------------------------------------- submission

  /** The database's answer to the order insert. */
  datatype OrderAnswer = Created(id: string) | Rejected(error: DbError)

  /** The answers the database gives during one submission: to the order
      insert, to the order-lines insert, and to the stock update of each
      cart line by position (a missing entry is a success). */
  datatype Faults = Faults(order: OrderAnswer, itemsError: Option<DbError>, stockErrors: seq<Option<DbError>>)

  predicate StockFails(f: Faults, i: nat)
  {
    i < |f.stockErrors| && f.stockErrors[i].Some?
  }

  /** The number of stock updates that succeed, from line `from` on, before
      the first that fails, out of `n` lines. */
  function StockUpdatesDone(f: Faults, from: nat, n: nat): (k: nat)
    requires from <= n
    ensures from <= k <= n
    ensures forall j :: from <= j < k ==> !StockFails(f, j)
    ensures k < n ==> StockFails(f, k)
    decreases n - from
  {
    if from == n then n
    else if StockFails(f, from) then from
    else StockUpdatesDone(f, from + 1, n)
  }

  datatype Step = OrderStep | ItemsStep | StockStep(line: nat)

  datatype Outcome =
    | EmptyCart
    | Invalid(errors: seq<string>)
    | Failed(step: Step)
    | Placed(orderId: string)

  /** How a submission of a valid form with cart lines `items` ends. */
  function SubmitOutcome(items: seq<CartItem>, f: Faults): (o: Outcome)
    ensures o.Placed? <==>
      (items != [] && f.order.Created? && f.itemsError.None? && forall j :: 0 <= j < |items| ==> !StockFails(f, j))
    ensures o.Placed? ==> o.orderId == f.order.id
    ensures o == EmptyCart <==> items == []
    ensures o.Failed? && o.step.StockStep? ==> o.step.line < |items| && StockFails(f, o.step.line)
  {
    if items == [] then EmptyCart
    else if f.order.Rejected? then Failed(OrderStep)
    else if f.itemsError.Some? then Failed(ItemsStep)
    else
      var k := StockUpdatesDone(f, 0, |items|);
      if k < |items| then Failed(StockStep(k)) else Placed(f.order.id)
  }

  /** The number of stock updates a submission performs. */
  function StockWrites(items: seq<CartItem>, f: Faults): (k: nat)
    ensures k <= |items|
    ensures k > 0 ==> f.order.Created? && f.itemsError.None?
    ensures SubmitOutcome(items, f).Placed? ==> k == |items|
  {
    if items == [] || f.order.Rejected? || f.itemsError.Some? then 0 else StockUpdatesDone(f, 0, |items|)
  }

  /** A failed submission that got past the order insert has written the
      order and kept the cart: nothing is undone. */
  lemma {:induction false} FailureAfterOrderKeepsWrites(items: seq<CartItem>, f: Faults)
    requires SubmitOutcome(items, f).Failed? && SubmitOutcome(items, f).step != OrderStep
    ensures f.order.Created?
    ensures SubmitOutcome(items, f).step.StockStep? ==>
      f.itemsError.None? && StockWrites(items, f) == SubmitOutcome(items, f).step.line
  {
  }

  /** A placed order has written, for every product in the cart, the
      snapshot level minus the quantity of its last line. */
  lemma {:induction false} PlacedOrderWritesEveryLine(stock: map<string, int>, items: seq<CartItem>, f: Faults, j: nat)
    requires SubmitOutcome(items, f).Placed?
    requires j < |items| && items[j].product.id in stock
    requires forall j' :: j < j' < |items| ==> items[j'].product.id != items[j].product.id
    ensures StockAfter(stock, items, StockWrites(items, f))[items[j].product.id] == Remaining(items[j])
  {
    StockAfterLastWrite(stock, items, |items|, j);
  }

  /** When the update of line `k` fails, a product that only later lines
      refer to keeps its level: the loop stops at the first error. */
  lemma {:induction false} FailedStockStepSkipsLaterLines(stock: map<string, int>, items: seq<CartItem>, f: Faults, id: string)
    requires SubmitOutcome(items, f).Failed? && SubmitOutcome(items, f).step.StockStep?
    requires id in stock
    requires forall j :: 0 <= j <= SubmitOutcome(items, f).step.line ==> items[j].product.id != id
    ensures StockAfter(stock, items, StockWrites(items, f))[id] == stock[id]
  {
    StockAfterUntouched(stock, items, StockWrites(items, f), id);
  }

  /** The `for` loop over the cart lines: one stock update per line, in cart
      order, stopping at the first update that fails. Returns the number of
      updates made. */
  method WriteStockLevels(db: Database, items: seq<CartItem>, f: Faults) returns (done: nat)
    modifies db
    ensures done == StockUpdatesDone(f, 0, |items|)
    ensures db.stock == StockAfter(old(db.stock), items, done)
    ensures db.orders == old(db.orders) && db.orderItems == old(db.orderItems)
  {
    done := 0;
    var failed := false;
    while done < |items| && !failed
      invariant done <= |items|
      invariant forall j :: 0 <= j < done ==> !StockFails(f, j)
      invariant failed ==> done < |items| && StockFails(f, done)
      invariant db.stock == StockAfter(old(db.stock), items, done)
      invariant db.orders == old(db.orders) && db.orderItems == old(db.orderItems)
      decreases |items| - done, if failed then 0 else 1
    {
      if StockFails(f, done) {
        failed := true;
      } else {
        db.UpdateStock(items[done].product.id, Remaining(items[done]));
        done := done + 1;
      }
    }
  }

  const EmptyCartAlert := "Your cart is empty"
  const ErrorAlert := "There was an error processing your order. Please try again."
  const ThankYouPath := "/thank-you"

  /** The alerts a submission shows. */
  function AlertsFor(o: Outcome): (a: seq<string>)
    ensures o.Placed? || o.Invalid? ==> a == []
    ensures o == EmptyCart ==> a == [EmptyCartAlert]
    ensures o.Failed? ==> a == [ErrorAlert]
  {
    match o
    case EmptyCart => [EmptyCartAlert]
    case Failed(_) => [ErrorAlert]
    case _ => []
  }

  /** A navigation to `/thank-you` carrying the new order id. */
  datatype Navigation = Navigation(path: string, orderId: string)

  class CheckoutPage {
    var isSubmitting: bool
    var alerts: seq<string>
    var navigation: Option<Navigation>

    constructor ()
      ensures !isSubmitting && alerts == [] && navigation == None
    {
      isSubmitting := false;
      alerts := [];
      navigation := None;
    }

    /** `onSubmit`, called with a form that passed validation. `totalPrice`
        is the cart total computed when the page rendered. */
    method OnSubmit(form: CheckoutForm, cart: CartStore.Cart, db: Database, totalPrice: real, f: Faults)
      returns (outcome: Outcome)
      modifies this, cart, db
      ensures outcome == SubmitOutcome(old(cart.items), f)
      ensures db.orders == if old(cart.items) != [] && f.order.Created?
        then old(db.orders)[f.order.id := OrderRow(form, totalPrice)] else old(db.orders)
      ensures db.orderItems == old(db.orderItems)
        + if old(cart.items) != [] && f.order.Created? && f.itemsError.None?
          then BuildOrderItems(f.order.id, old(cart.items)) else []
      ensures db.stock == StockAfter(old(db.stock), old(cart.items), StockWrites(old(cart.items), f))
      ensures cart.items == if outcome.Placed? then [] else old(cart.items)
      ensures cart.requests == old(cart.requests)
      ensures navigation == if outcome.Placed? then Some(Navigation(ThankYouPath, outcome.orderId)) else old(navigation)
      ensures alerts == old(alerts) + AlertsFor(outcome)
      ensures isSubmitting == (if outcome == EmptyCart then old(isSubmitting) else false)
    {
      var items := cart.items;
      if |items| == 0 {
        alerts := alerts + [EmptyCartAlert];
        return EmptyCart;
      }
      isSubmitting := true;
      if f.order.Rejected? {
        outcome := Failed(OrderStep);
      } else {
        var id := f.order.id;
        db.InsertOrder(id, OrderRow(form, totalPrice));
        var rows := BuildOrderItems(id, items);
        if f.itemsError.Some? {
          outcome := Failed(ItemsStep);
        } else {
          db.InsertOrderItems(rows);
          var done := WriteStockLevels(db, items, f);
          if done < |items| {
            outcome := Failed(StockStep(done));
          } else {
            cart.ClearCart();
            navigation := Some(Navigation(ThankYouPath, id));
            outcome := Placed(id);
          }
        }
      }
      if outcome.Failed? {
        alerts := alerts + [ErrorAlert];
      }
      isSubmitting := false;
    }

    /** `handleSubmit(onSubmit)`: the schema is checked first; an invalid
        form shows its messages and submits nothing. */
    method HandleSubmit(form: CheckoutForm, cart: CartStore.Cart, db: Database, totalPrice: real, f: Faults)
      returns (outcome: Outcome)
      modifies this, cart, db
      ensures !ValidForm(form) ==>
        (outcome == Invalid(FormErrors(form)) && unchanged(this) && unchanged(cart) && unchanged(db))
      ensures ValidForm(form) ==> outcome == SubmitOutcome(old(cart.items), f)
      ensures ValidForm(form) ==>
        db.orders == if old(cart.items) != [] && f.order.Created?
          then old(db.orders)[f.order.id := OrderRow(form, totalPrice)] else old(db.orders)
      ensures ValidForm(form) ==>
        db.orderItems == old(db.orderItems)
          + if old(cart.items) != [] && f.order.Created? && f.itemsError.None?
            then BuildOrderItems(f.order.id, old(cart.items)) else []
      ensures ValidForm(form) ==> db.stock == StockAfter(old(db.stock), old(cart.items), StockWrites(old(cart.items), f))
      ensures ValidForm(form) ==> cart.requests == old(cart.requests)
      ensures ValidForm(form) ==> alerts == old(alerts) + AlertsFor(outcome)
      ensures ValidForm(form) ==> isSubmitting == (if outcome == EmptyCart then old(isSubmitting) else false)
      ensures ValidForm(form) ==>
        navigation == if outcome.Placed? then Some(Navigation(ThankYouPath, outcome.orderId)) else old(navigation)
      ensures cart.items == if outcome.Placed? then [] else old(cart.items)
    {
      var errs := FormErrors(form);
      if errs != [] {
        return Invalid(errs);
      }
      outcome := OnSubmit(form, cart, db, totalPrice, f);
    }
  }
}
