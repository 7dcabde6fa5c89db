/** The cart: lines built from a card's choice, their prices, and the pure
    transformations behind the cart drawer's buttons (`updateQty`,
    `removeItem`). The state that holds the cart is in the Shop module. */
module Cart {
  import opened Collections
  import opened Menu

  /** One cart line: the dish's fields, quantity, extras and spice level, plus the
      `_id` given to it when it was added. `extras` is optional because the
      pricing code treats a line without extras as having none. */
  datatype CartLine = CartLine(item: MenuItem, qty: int, extras: Option<seq<Extra>>, spice: string, lineId: string)

  /** `{ ...choice, _id }`: the line `addToCart` appends for a card's choice. */
  function NewLine(c: Choice, lineId: string): (l: CartLine)
    ensures l.lineId == lineId && l.item == c.item && l.qty == c.qty
    ensures l.extras == Some(c.extras) && l.spice == c.spice
  {
    CartLine(c.item, c.qty, Some(c.extras), c.spice, lineId)
  }

  /** The surcharge of a line's extras; a line without extras has none. */
  function LineExtrasPrice(l: CartLine): int {
    match l.extras
    case None => 0
    case Some(es) => ExtrasPrice(es)
  }

  /** `(it.price + (it.extras?.reduce(...) || 0)) * it.qty`: a line's subtotal. */
  function LineSubtotal(l: CartLine): int {
    (l.item.price + LineExtrasPrice(l)) * l.qty
  }

  /** A line without extras, or with an empty list of them, costs its unit price
      times its quantity; a line of quantity one costs its unit price plus its
      surcharge. */
  lemma LineSubtotalCases(l: CartLine)
    ensures l.extras.None? || l.extras.value == [] ==> LineSubtotal(l) == l.item.price * l.qty
    ensures l.extras.Some? && l.qty == 1 ==> LineSubtotal(l) == l.item.price + ExtrasPrice(l.extras.value)
  {
  }

  /** `cart.reduce((a, it) => a + subtotal(it), 0)`: the line subtotals added up
      left to right. */
  function CartTotal(cart: seq<CartLine>): int {
    if |cart| == 0 then 0 else CartTotal(cart[..|cart| - 1]) + LineSubtotal(cart[|cart| - 1])
  }

  /** Without negative subtotals the total is not negative and is at least the
      subtotal of each line. */
  lemma {:induction false} CartTotalBounds(cart: seq<CartLine>)
    requires forall i :: 0 <= i < |cart| ==> LineSubtotal(cart[i]) >= 0
    ensures CartTotal(cart) >= 0
    ensures forall i :: 0 <= i < |cart| ==> LineSubtotal(cart[i]) <= CartTotal(cart)
  {
    if |cart| > 0 {
      var init := cart[..|cart| - 1];
      CartTotalBounds(init);
      assert forall i :: 0 <= i < |init| ==> init[i] == cart[i];
    }
  }

  /** The total of two carts laid end to end is the sum of their totals. */
  lemma {:induction false} CartTotalConcat(a: seq<CartLine>, b: seq<CartLine>)
    ensures CartTotal(a + b) == CartTotal(a) + CartTotal(b)
  {
    if |b| == 0 {
      assert a + b == a;
    } else {
      CartTotalConcat(a, b[..|b| - 1]);
      assert (a + b)[..|a + b| - 1] == a + b[..|b| - 1];
    }
  }

  /** Adding a line raises the total by exactly that line's subtotal. */
  lemma CartTotalAppend(cart: seq<CartLine>, l: CartLine)
    ensures CartTotal(cart + [l]) == CartTotal(cart) + LineSubtotal(l)
  {
    assert (cart + [l])[..|cart|] == cart;
  }

  /** A card's displayed subtotal is the subtotal of the line it adds to the
      cart, whatever the extras catalogue (the page's is `Extras`). */
  lemma CardSubtotalIsLineSubtotal(catalog: seq<Extra>, item: MenuItem, ids: seq<string>, qty: int, spice: string, lineId: string)
    ensures LineSubtotal(NewLine(Choice(item, qty, SelectExtras(catalog, ids), spice), lineId))
         == ItemTotal(catalog, item, ids, qty)
  {
    var es := SelectExtras(catalog, ids);
    var l := NewLine(Choice(item, qty, es, spice), lineId);
    assert LineExtrasPrice(l) == ExtrasPrice(es);
  }

  /** Every line of the cart has a quantity of at least one. */
  predicate AllPositive(cart: seq<CartLine>) {
    forall i :: 0 <= i < |cart| ==> cart[i].qty >= 1
  }

  /** The line with its quantity stepped by `d` when it has id `id`. */
  function Stepped(l: CartLine, id: string, d: int): CartLine {
    if l.lineId == id then l.(qty := MaxOne(l.qty + d)) else l
  }

  /** `p.map(it => it._id === id ? {...it, qty: Math.max(1, it.qty + d)} : it)`. */
  function QtyUpdated(cart: seq<CartLine>, id: string, d: int): (r: seq<CartLine>)
    ensures |r| == |cart|
    ensures forall i :: 0 <= i < |cart| && cart[i].lineId != id ==> r[i] == cart[i]
    ensures forall i :: 0 <= i < |cart| && cart[i].lineId == id ==>
              r[i] == cart[i].(qty := MaxOne(cart[i].qty + d))
  {
    if |cart| == 0 then [] else [Stepped(cart[0], id, d)] + QtyUpdated(cart[1..], id, d)
  }

  /** Stepping a quantity keeps the lines, their order and their ids; every line it
      touches ends with quantity at least one and the step applied when that does
      not go below one; and a cart whose quantities are all positive stays so. */
  lemma QtyUpdatedSpec(cart: seq<CartLine>, id: string, d: int)
    ensures forall i :: 0 <= i < |cart| ==> QtyUpdated(cart, id, d)[i].lineId == cart[i].lineId
    ensures forall i :: 0 <= i < |cart| && cart[i].lineId == id ==>
              QtyUpdated(cart, id, d)[i].qty >= 1 &&
              (cart[i].qty + d >= 1 ==> QtyUpdated(cart, id, d)[i].qty == cart[i].qty + d)
    ensures AllPositive(cart) ==> AllPositive(QtyUpdated(cart, id, d))
  {
  }

  /** The minus button on a line whose quantity is one changes nothing. */
  lemma DecrementAtOneIsNoop(cart: seq<CartLine>, id: string)
    requires forall i :: 0 <= i < |cart| && cart[i].lineId == id ==> cart[i].qty == 1
    ensures QtyUpdated(cart, id, -1) == cart
  {
  }

  /** The test "does not have id `id`", for lines. */
  function KeepsLine(id: string): CartLine -> bool {
    (l: CartLine) => l.lineId != id
  }

  /** `p.filter(it => it._id !== id)`: the cart without the lines of id `id`. */
  function Removed(cart: seq<CartLine>, id: string): (r: seq<CartLine>)
    ensures |r| <= |cart|
    ensures forall l :: l in r <==> l in cart && l.lineId != id
  {
    Filter(cart, KeepsLine(id))
  }

  /** Removal leaves no line with that id, keeps every other line, in the original
      relative order, and what it keeps plus what it drops is the old cart. */
  lemma RemovedSpec(cart: seq<CartLine>, id: string)
    ensures forall l :: l in Removed(cart, id) <==> l in cart && l.lineId != id
    ensures IsSubsequence(Removed(cart, id), cart)
    ensures multiset(Removed(cart, id)) + multiset(Filter(cart, Negate(KeepsLine(id)))) == multiset(cart)
    ensures AllPositive(cart) ==> AllPositive(Removed(cart, id))
  {
    FilterIsSubsequence(cart, KeepsLine(id));
    FilterPartition(cart, KeepsLine(id));
    var r := Removed(cart, id);
    if AllPositive(cart) {
      forall i | 0 <= i < |r| ensures r[i].qty >= 1 {
        assert r[i] in cart;
      }
    }
  }

  /** The total of a cart is its first line's subtotal plus the total of the rest. */
  lemma CartTotalCons(l: CartLine, rest: seq<CartLine>)
    ensures CartTotal([l] + rest) == LineSubtotal(l) + CartTotal(rest)
  {
    CartTotalConcat([l], rest);
    assert CartTotal([l]) == CartTotal([]) + LineSubtotal(l);
  }

  /** Removing lines lowers the total by exactly the subtotals of the removed lines. */
  lemma {:induction false} RemovedTotal(cart: seq<CartLine>, id: string)
    ensures CartTotal(Removed(cart, id)) + CartTotal(Filter(cart, Negate(KeepsLine(id)))) == CartTotal(cart)
  {
    if |cart| > 0 {
      var l, rest := cart[0], cart[1..];
      assert cart == [l] + rest;
      RemovedTotal(rest, id);
      CartTotalCons(l, rest);
      if l.lineId != id {
        assert Removed(cart, id) == [l] + Removed(rest, id);
        assert Filter(cart, Negate(KeepsLine(id))) == Filter(rest, Negate(KeepsLine(id)));
        CartTotalCons(l, Removed(rest, id));
      } else {
        assert Removed(cart, id) == Removed(rest, id);
        assert Filter(cart, Negate(KeepsLine(id))) == [l] + Filter(rest, Negate(KeepsLine(id)));
        CartTotalCons(l, Filter(rest, Negate(KeepsLine(id))));
      }
    }
  }

  /** Worked example: one bowl at 9900 won with extras of 1000 and 1500, twice, is 24800 won. */
  lemma SubtotalExample()
    ensures LineSubtotal(CartLine(BaseMenu[0], 2, Some([Extras[0], Extras[1]]), "순한맛", "l1")) == 24800
  {
    var es := [Extras[0], Extras[1]];
    assert es[..1] == [Extras[0]];
    assert ExtrasPrice(es) == ExtrasPrice([Extras[0]]) + 1500;
    assert ExtrasPrice([Extras[0]]) == ExtrasPrice([]) + 1000;
  }
}
