/** Orders and the state that changes while a guest orders: the app's cart and
    stage (`MimiGukbapOrderApp`), the checkout form's submission
    (`handleSubmit`) and the order log it appends to (the "mimi_orders" entry
    of local storage, kept here as an in-memory sequence). The clock and the
    id generator are inputs: each operation that needs a fresh id or the
    current time takes it as a parameter. */
module Shop {
  import opened Collections
  import opened Menu
  import opened Cart

  /** How the guest takes the order; delivery is offered but disabled. */
  datatype OrderType = DineIn | Takeout | Delivery {
    /** The label the order-type selector shows and the order record stores. */
    function Label(): (s: string)
      ensures s == "매장" <==> this == DineIn
      ensures s == "포장" <==> this == Takeout
      ensures s == "배달(준비중)" <==> this == Delivery
    {
      match this
      case DineIn => "매장"
      case Takeout => "포장"
      case Delivery => "배달(준비중)"
    }
  }

  /** An instant as the order stores it: its ISO text, and the milliseconds since
      the epoch that `new Date(iso)` gives back when orders are compared. */
  datatype Timestamp = Timestamp(iso: string, millis: int)

  /** The status every new order gets ("waiting for acceptance"); nothing changes it. */
  const Pending: string := "접수대기"

  /** A submitted order. The text fields are optional because the admin panel and
      the export guard each of them against absence. */
  datatype Order = Order(
    id: string,
    date: Timestamp,
    day: string,
    kind: OrderType,
    name: Option<string>,
    phone: Option<string>,
    tableNo: Option<string>,
    pickupAt: Option<string>,
    memo: Option<string>,
    items: seq<CartLine>,
    total: int,
    status: string)

  /** What the checkout form holds when it is submitted. */
  datatype Form = Form(kind: OrderType, name: string, phone: string, tableNo: string, pickupAt: string, memo: string)

  /** The order `handleSubmit` builds from the cart, the form, a fresh id and the
      current instant and day. */
  function NewOrder(cart: seq<CartLine>, form: Form, id: string, date: Timestamp, day: string): (o: Order)
    ensures o.total == CartTotal(o.items)
    ensures o.name.Some? && o.phone.Some? && o.status == Pending
  {
    Order(id, date, day, form.kind, Some(form.name), Some(form.phone), Some(form.tableNo),
          Some(form.pickupAt), Some(form.memo), cart, CartTotal(cart), Pending)
  }

  /** A new order carries the cart as its items and, as its total, the sum of the
      lines' subtotals; it is pending and all its text fields are present. */
  lemma NewOrderSpec(cart: seq<CartLine>, form: Form, id: string, date: Timestamp, day: string)
    ensures var o := NewOrder(cart, form, id, date, day);
      && o.items == cart && o.total == CartTotal(o.items)
      && (|cart| > 0 ==> o.total == LineSubtotal(cart[0]) + CartTotal(cart[1..]))
      && o.status == Pending && o.id == id && o.date == date && o.day == day
      && o.kind == form.kind && o.name == Some(form.name) && o.phone == Some(form.phone)
      && o.tableNo == Some(form.tableNo) && o.pickupAt == Some(form.pickupAt) && o.memo == Some(form.memo)
  {
    if |cart| > 0 {
      CartTotalCons(cart[0], cart[1..]);
      assert cart == [cart[0]] + cart[1..];
    }
  }

  /** The order log: an append-only list of orders, oldest first. */
  class OrderStore {
    var orders: seq<Order>

    constructor ()
      ensures orders == []
    {
      orders := [];
    }

    /** `list.push(order)` followed by writing the list back. */
    method Append(o: Order)
      modifies this
      ensures orders == old(orders) + [o]
      ensures |orders| == |old(orders)| + 1 && orders[|orders| - 1] == o
      ensures forall i :: 0 <= i < |old(orders)| ==> orders[i] == old(orders)[i]
    {
      orders := orders + [o];
    }
  }

  /** Which screen the app shows below the menu. */
  datatype Stage = Browsing | AtCheckout | Done

  /** The app's own state: the cart, the stage and the last order placed. */
  class OrderApp {
    var cart: seq<CartLine>
    var stage: Stage
    var orderDone: Option<Order>

    /** Every line of the cart has a quantity of at least one: cards never hand
        over less, and the drawer's stepper never goes below one. */
    ghost predicate Valid()
      reads this
    {
      AllPositive(cart)
    }

    constructor ()
      ensures Valid()
      ensures cart == [] && stage == Browsing && orderDone == None
    {
      cart := [];
      stage := Browsing;
      orderDone := None;
    }

    /** The total the cart drawer and the checkout page display. */
    function Total(): (r: int)
      reads this
      ensures |cart| == 0 ==> r == 0
      ensures (forall i :: 0 <= i < |cart| ==> LineSubtotal(cart[i]) >= 0) ==>
                r >= 0 && forall i :: 0 <= i < |cart| ==> LineSubtotal(cart[i]) <= r
    {
      if forall i :: 0 <= i < |cart| ==> LineSubtotal(cart[i]) >= 0 then
        CartTotalBounds(cart);
        CartTotal(cart)
      else
        CartTotal(cart)
    }

    /** `addToCart`: append the card's choice under the fresh id `lineId`. */
    method AddToCart(choice: Choice, lineId: string)
      requires Valid() && choice.qty >= 1
      modifies this`cart
      ensures Valid()
      ensures cart == old(cart) + [NewLine(choice, lineId)]
      ensures Total() == old(Total()) + LineSubtotal(NewLine(choice, lineId))
    {
      CartTotalAppend(cart, NewLine(choice, lineId));
      cart := cart + [NewLine(choice, lineId)];
    }

    /** `updateQty`: the drawer's plus and minus buttons on the line `id`. */
    method UpdateQty(id: string, d: int)
      requires Valid()
      modifies this`cart
      ensures Valid()
      ensures cart == QtyUpdated(old(cart), id, d)
      ensures |cart| == |old(cart)|
    {
      QtyUpdatedSpec(cart, id, d);
      cart := QtyUpdated(cart, id, d);
    }

    /** `removeItem`: the drawer's delete button on the line `id`. */
    method RemoveItem(id: string)
      requires Valid()
      modifies this`cart
      ensures Valid()
      ensures cart == Removed(old(cart), id)
      ensures forall l :: l in cart ==> l.lineId != id
      ensures Total() == old(Total()) - CartTotal(Filter(old(cart), Negate(KeepsLine(id))))
    {
      RemovedTotal(cart, id);
      RemovedSpec(cart, id);
      cart := Removed(cart, id);
    }

    /** The drawer's checkout button; it is disabled while the cart is empty. */
    method Checkout() returns (shown: bool)
      requires Valid()
      modifies this`stage
      ensures Valid()
      ensures shown == (|cart| > 0)
      ensures stage == if shown then AtCheckout else old(stage)
    {
      shown := |cart| > 0;
      if shown {
        stage := AtCheckout;
      }
    }

    /** The checkout page's back button. */
    method Back()
      requires Valid() && stage == AtCheckout
      modifies this`stage
      ensures Valid() && stage == Browsing
    {
      stage := Browsing;
    }

    /** `handleSubmit` followed by `handleComplete`: build the order from the cart as
        it is now, append it to the log, then empty the cart and show the
        confirmation. */
    method Submit(log: OrderStore, form: Form, id: string, date: Timestamp, day: string) returns (order: Order)
      requires Valid() && stage == AtCheckout
      modifies this, log
      ensures Valid()
      ensures order == NewOrder(old(cart), form, id, date, day)
      ensures order.items == old(cart) && order.total == old(Total())
      ensures log.orders == old(log.orders) + [order]
      ensures cart == [] && stage == Done && orderDone == Some(order)
    {
      order := NewOrder(cart, form, id, date, day);
      log.Append(order);
      cart := [];
      stage := Done;
      orderDone := Some(order);
    }
  }

  /** Only the drawer's checkout button looks at the cart: the checkout page stays
      up while the drawer can still delete lines, and submission appends whatever
      the cart holds. So an order with no items and a total of zero can be logged. */
  method EmptyOrderCanBeLogged(item: MenuItem, form: Form, date: Timestamp, day: string) returns (order: Order)
    ensures order.items == [] && order.total == 0
  {
    var app := new OrderApp();
    var log := new OrderStore();
    // what a fresh card for `item` hands over
    var choice := Choice(item, 1, [], DefaultSpice(item));
    var line := NewLine(choice, "line-1");
    app.AddToCart(choice, "line-1");
    assert app.cart == [line];
    var shown := app.Checkout();
    FilterKeepsNone([line], KeepsLine("line-1"));
    app.RemoveItem("line-1");
    order := app.Submit(log, form, "order-1", date, day);
  }
}
