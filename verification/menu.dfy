/** The menu side of the ordering page: catalogue entries, the extras a
    guest may add to a dish, the per-dish card where quantity, spice level
    and extras are chosen (the `MenuItem` component), and the menu search
    (`filteredMenu`). Prices are whole won. */
module Menu {
  import opened Collections
  import opened Strings

  /** An add-on (rice, noodles, meat, large size) with its surcharge. */
  datatype Extra = Extra(id: string, name: string, price: int)

  /** A dish of the catalogue. */
  datatype MenuItem = MenuItem(id: string, name: string, desc: string, price: int, spicy: bool, tags: seq<string>)

  /** What a card hands to the cart when "add" is pressed: the dish, the chosen
      quantity, the chosen extras and the spice level. */
  datatype Choice = Choice(item: MenuItem, qty: int, extras: seq<Extra>, spice: string)

  /** The extras catalogue, in display order. */
  const Extras: seq<Extra> := [
    Extra("rice", "공기밥 추가", 1000),
    Extra("noodle", "사리 추가", 1500),
    Extra("meat", "고기 추가", 3000),
    Extra("size", "곱빼기", 2000)
  ]

  /** The dishes the page starts with. */
  const BaseMenu: seq<MenuItem> := [
    MenuItem("sal-01", "살코기국밥", "담백한 우사골 육수에 살코기 듬뿍", 9900, false, ["베스트", "사골"]),
    MenuItem("mod-02", "모듬국밥", "살코기+수육이 조화로운 인기 메뉴", 10900, false, ["베스트", "든든"]),
    MenuItem("dae-03", "얼큰다데기국밥", "칼칼하게 즐기는 매운 국밥", 10900, true, ["매운맛"]),
    MenuItem("gal-04", "갈비탕(우사골)", "우사골만 사용한 깊은 국물", 12900, false, ["사골", "시그니처"]),
    MenuItem("gop-05", "곱창전골(1인)", "곱창 듬뿍, 얼큰 국물", 13900, true, ["전골", "인기"]),
    MenuItem("mae-06", "매생이떡국", "속 편한 바다 향 매생이", 10900, false, ["계절", "담백"]),
    MenuItem("kim-07", "김치비지찌개", "깊고 담백한 비지찌개", 9900, true, ["집밥"])
  ]

  /** `Math.max(1, x)`: the quantity floor used by both quantity steppers. */
  function MaxOne(x: int): (r: int)
    ensures r >= 1 && r >= x
    ensures r == x || r == 1
  {
    if x < 1 then 1 else x
  }

  /** The spice levels the card's selector offers for `item`. */
  function SpiceLevels(item: MenuItem): (r: seq<string>)
    ensures "순한맛" in r && "보통" in r
    ensures "매운맛" in r <==> item.spicy
    ensures |r| == if item.spicy then 3 else 2
  {
    if item.spicy then ["순한맛", "보통", "매운맛"] else ["순한맛", "보통"]
  }

  /** The spice level a fresh card starts with; always one the selector offers. */
  function DefaultSpice(item: MenuItem): (r: string)
    ensures r in SpiceLevels(item)
    ensures r == SpiceLevels(item)[if item.spicy then 1 else 0]
  {
    if item.spicy then "보통" else "순한맛"
  }

  /** The test "is not `id`". */
  function Other(id: string): string -> bool {
    x => x != id
  }

  /** The test "is one of `ids`", for extras. */
  function IdIn(ids: seq<string>): Extra -> bool {
    (e: Extra) => e.id in ids
  }

  /** The test "carries `id`", for extras. */
  function IdIs(id: string): Extra -> bool {
    (e: Extra) => e.id == id
  }

  /** Ticking an extra's box: drop every occurrence of `id` if present, else append it. */
  function Toggled(ids: seq<string>, id: string): (r: seq<string>)
    ensures forall x :: x in r <==> (if x == id then id !in ids else x in ids)
  {
    if id in ids then Filter(ids, Other(id)) else ids + [id]
  }

  /** Ticking the same box twice restores which extras are chosen; from an
      unticked box it restores the very same list. */
  lemma ToggledTwice(ids: seq<string>, id: string)
    ensures forall x :: x in Toggled(Toggled(ids, id), id) <==> x in ids
    ensures id !in ids ==> Toggled(Toggled(ids, id), id) == ids
  {
    if id !in ids {
      FilterConcat(ids, [id], Other(id));
      FilterKeepsAll(ids, Other(id));
    }
  }

  /** `EXTRAS.filter(e => ids.includes(e.id))`: the catalogue extras whose ids are chosen. */
  function SelectExtras(catalog: seq<Extra>, ids: seq<string>): (r: seq<Extra>)
    ensures forall e :: e in r <==> e in catalog && e.id in ids
  {
    Filter(catalog, IdIn(ids))
  }

  /** The chosen extras come in catalogue order, not in the order they were ticked. */
  lemma SelectExtrasInCatalogueOrder(catalog: seq<Extra>, ids: seq<string>)
    ensures IsSubsequence(SelectExtras(catalog, ids), catalog)
  {
    FilterIsSubsequence(catalog, IdIn(ids));
  }

  /** Only which ids are chosen matters, not their order or repetition. */
  lemma SelectExtrasByMembership(catalog: seq<Extra>, a: seq<string>, b: seq<string>)
    requires forall x :: x in a <==> x in b
    ensures SelectExtras(catalog, a) == SelectExtras(catalog, b)
  {
    FilterCongruent(catalog, IdIn(a), IdIn(b));
  }

  /** `extras.reduce((x, y) => x + y.price, 0)`: the surcharges added up left to right. */
  function ExtrasPrice(es: seq<Extra>): int {
    if |es| == 0 then 0 else ExtrasPrice(es[..|es| - 1]) + es[|es| - 1].price
  }

  /** Without negative prices the surcharge is not negative and is at least the
      price of each extra in it. */
  lemma {:induction false} ExtrasPriceBounds(es: seq<Extra>)
    requires forall e :: e in es ==> e.price >= 0
    ensures ExtrasPrice(es) >= 0
    ensures forall e :: e in es ==> e.price <= ExtrasPrice(es)
  {
    if |es| > 0 {
      var init := es[..|es| - 1];
      assert forall e :: e in init ==> e in es;
      ExtrasPriceBounds(init);
      assert es == init + [es[|es| - 1]];
    }
  }

  /** The surcharge of two runs of extras is the sum of their surcharges. */
  lemma {:induction false} ExtrasPriceConcat(a: seq<Extra>, b: seq<Extra>)
    ensures ExtrasPrice(a + b) == ExtrasPrice(a) + ExtrasPrice(b)
  {
    if |b| == 0 {
      assert a + b == a;
    } else {
      ExtrasPriceConcat(a, b[..|b| - 1]);
      assert (a + b)[..|a + b| - 1] == a + b[..|b| - 1];
    }
  }

  /** The surcharge of the catalogue entries carrying `id`. */
  function PriceOfId(catalog: seq<Extra>, id: string): int {
    ExtrasPrice(Filter(catalog, IdIs(id)))
  }

  /** Ticking an extra that was not chosen raises the unit surcharge by exactly
      the price of the catalogue entries with that id. */
  lemma {:induction false} SelectOneMore(catalog: seq<Extra>, ids: seq<string>, id: string)
    requires id !in ids
    ensures ExtrasPrice(SelectExtras(catalog, ids + [id]))
         == ExtrasPrice(SelectExtras(catalog, ids)) + PriceOfId(catalog, id)
  {
    if |catalog| > 0 {
      var e, rest := catalog[0], catalog[1..];
      SelectOneMore(rest, ids, id);
      var with := if e.id in ids + [id] then [e] else [];
      var without := if e.id in ids then [e] else [];
      var same := if e.id == id then [e] else [];
      assert SelectExtras(catalog, ids + [id]) == with + SelectExtras(rest, ids + [id]);
      assert SelectExtras(catalog, ids) == without + SelectExtras(rest, ids);
      assert Filter(catalog, IdIs(id)) == same + Filter(rest, IdIs(id));
      ExtrasPriceConcat(with, SelectExtras(rest, ids + [id]));
      ExtrasPriceConcat(without, SelectExtras(rest, ids));
      ExtrasPriceConcat(same, Filter(rest, IdIs(id)));
    }
  }

  /** No two extras of `catalog` share an id. */
  predicate DistinctIds(catalog: seq<Extra>) {
    forall i, j :: 0 <= i < j < |catalog| ==> catalog[i].id != catalog[j].id
  }

  /** In a catalogue with distinct ids, the entries carrying the id of entry `k`
      are entry `k` alone. */
  lemma {:induction false} OnlyEntryWithItsId(catalog: seq<Extra>, k: nat)
    requires DistinctIds(catalog) && k < |catalog|
    ensures Filter(catalog, IdIs(catalog[k].id)) == [catalog[k]]
  {
    var rest := catalog[1..];
    if k == 0 {
      assert forall e :: e in rest ==> e.id != catalog[0].id;
      FilterKeepsNone(rest, IdIs(catalog[0].id));
    } else {
      assert DistinctIds(rest);
      OnlyEntryWithItsId(rest, k - 1);
    }
  }

  /** The page's extras catalogue has distinct ids. */
  lemma ExtrasDistinct()
    ensures DistinctIds(Extras)
  {
  }

  /** The card's running subtotal (`itemTotal`): unit price plus the surcharges of
      the chosen extras of `catalog` (the page passes `Extras`), times quantity. */
  function ItemTotal(catalog: seq<Extra>, item: MenuItem, ids: seq<string>, qty: int): int {
    (item.price + ExtrasPrice(SelectExtras(catalog, ids))) * qty
  }

  /** With nothing ticked the subtotal is the unit price times the quantity; with
      a quantity of at least one and no negative prices it is at least the unit
      price. */
  lemma ItemTotalBounds(catalog: seq<Extra>, item: MenuItem, ids: seq<string>, qty: int)
    ensures ids == [] ==> ItemTotal(catalog, item, ids, qty) == item.price * qty
    ensures item.price >= 0 && qty >= 1 && (forall e :: e in catalog ==> e.price >= 0) ==>
              ItemTotal(catalog, item, ids, qty) >= item.price
  {
    var chosen := SelectExtras(catalog, ids);
    assert ids == [] ==> chosen == [];
    if item.price >= 0 && qty >= 1 && (forall e :: e in catalog ==> e.price >= 0) {
      ExtrasPriceBounds(chosen);
      var unit := item.price + ExtrasPrice(chosen);
      assert unit * qty >= unit;
    }
  }

  /** In a catalogue with distinct ids, ticking the unchosen entry `k` raises the
      unit surcharge by that entry's price. */
  lemma TickRaisesSurcharge(catalog: seq<Extra>, ids: seq<string>, k: nat)
    requires DistinctIds(catalog) && k < |catalog| && catalog[k].id !in ids
    ensures ExtrasPrice(SelectExtras(catalog, Toggled(ids, catalog[k].id)))
         == ExtrasPrice(SelectExtras(catalog, ids)) + catalog[k].price
  {
    var e := catalog[k];
    assert Toggled(ids, e.id) == ids + [e.id];
    SelectOneMore(catalog, ids, e.id);
    OnlyEntryWithItsId(catalog, k);
    assert ExtrasPrice([e]) == ExtrasPrice([]) + e.price;
  }

  /** Raising the surcharge of the chosen extras by `p` raises the card's
      subtotal by `p` times the quantity. */
  lemma ItemTotalRaise(catalog: seq<Extra>, item: MenuItem, a: seq<string>, b: seq<string>, p: int, qty: int)
    requires ExtrasPrice(SelectExtras(catalog, b)) == ExtrasPrice(SelectExtras(catalog, a)) + p
    ensures ItemTotal(catalog, item, b, qty) == ItemTotal(catalog, item, a, qty) + p * qty
  {
    Distributes(item.price + ExtrasPrice(SelectExtras(catalog, a)), p, qty);
  }

  /** Multiplication distributes over addition: the one arithmetic step above,
      proved apart from the catalogue facts that would otherwise swamp it. */
  lemma Distributes(a: int, b: int, c: int)
    ensures (a + b) * c == a * c + b * c
  {
  }

  /** Ticking an unchosen extra raises the card's subtotal by its price times the
      quantity, in any catalogue with distinct ids (the page's is one). */
  lemma TickRaisesItemTotal(catalog: seq<Extra>, item: MenuItem, ids: seq<string>, k: nat, qty: int)
    requires DistinctIds(catalog) && k < |catalog| && catalog[k].id !in ids
    ensures ItemTotal(catalog, item, Toggled(ids, catalog[k].id), qty)
         == ItemTotal(catalog, item, ids, qty) + catalog[k].price * qty
  {
    TickRaisesSurcharge(catalog, ids, k);
    ItemTotalRaise(catalog, item, ids, Toggled(ids, catalog[k].id), catalog[k].price, qty);
  }

  /** A dish matches the menu search when its name or description contains it. */
  predicate MenuMatches(m: MenuItem, search: string) {
    Contains(m.name, search) || Contains(m.desc, search)
  }

  /** The menu search as a test on dishes. */
  function SearchTest(search: string): MenuItem -> bool {
    m => MenuMatches(m, search)
  }

  /** `filteredMenu`: the dishes that match the search, in menu order. */
  function FilterMenu(menu: seq<MenuItem>, search: string): (r: seq<MenuItem>)
    ensures |r| <= |menu|
    ensures forall m :: m in r <==> m in menu && MenuMatches(m, search)
  {
    Filter(menu, SearchTest(search))
  }

  /** The search keeps exactly the matching dishes, in menu order, and the empty
      search keeps the whole menu. */
  lemma FilterMenuSpec(menu: seq<MenuItem>, search: string)
    ensures forall m :: m in FilterMenu(menu, search) <==> m in menu && MenuMatches(m, search)
    ensures IsSubsequence(FilterMenu(menu, search), menu)
    ensures search == "" ==> FilterMenu(menu, search) == menu
  {
    FilterIsSubsequence(menu, SearchTest(search));
    if search == "" {
      forall m | m in menu ensures MenuMatches(m, search) {
        ContainsEmptyAndSelf(m.name);
      }
      FilterKeepsAll(menu, SearchTest(search));
    }
  }

  /** The state of one dish's card: quantity stepper, ticked extras and spice level. */
  class ItemCard {
    const item: MenuItem
    var qty: int
    var extraIds: seq<string>
    var spice: string

    /** The stepper never shows less than one, and the spice is one the selector offers. */
    ghost predicate Valid()
      reads this
    {
      qty >= 1 && spice in SpiceLevels(item)
    }

    constructor (item: MenuItem)
      ensures Valid()
      ensures this.item == item && qty == 1 && extraIds == [] && spice == DefaultSpice(item)
    {
      this.item := item;
      qty := 1;
      extraIds := [];
      spice := DefaultSpice(item);
    }

    /** The minus button: one less, but never below one. */
    method Decrement()
      requires Valid()
      modifies this`qty
      ensures Valid()
      ensures qty == MaxOne(old(qty) - 1)
      ensures old(qty) == 1 ==> qty == 1
      ensures old(qty) > 1 ==> qty == old(qty) - 1
    {
      qty := MaxOne(qty - 1);
    }

    /** The plus button. */
    method Increment()
      requires Valid()
      modifies this`qty
      ensures Valid() && qty == old(qty) + 1
    {
      qty := qty + 1;
    }

    /** Ticking or unticking an extra's box. */
    method ToggleExtra(id: string)
      requires Valid()
      modifies this`extraIds
      ensures Valid() && extraIds == Toggled(old(extraIds), id)
    {
      extraIds := Toggled(extraIds, id);
    }

    /** Picking a spice level from the selector, which offers only `SpiceLevels(item)`. */
    method ChooseSpice(level: string)
      requires Valid() && level in SpiceLevels(item)
      modifies this`spice
      ensures Valid() && spice == level
    {
      spice := level;
    }

    /** The subtotal the card displays. */
    function Subtotal(): (r: int)
      reads this
      ensures extraIds == [] ==> r == item.price * qty
      ensures Valid() && item.price >= 0 ==> r >= item.price
    {
      assert forall e :: e in Extras ==> e.price >= 0;
      ItemTotalBounds(Extras, item, extraIds, qty);
      ItemTotal(Extras, item, extraIds, qty)
    }

    /** The object handed to the cart by the add button. */
    function Selection(): (c: Choice)
      requires Valid()
      reads this
      ensures c.item == item && c.qty == qty && c.spice == spice && c.extras == SelectExtras(Extras, extraIds)
      ensures c.qty >= 1 && c.spice in SpiceLevels(item)
      ensures forall e :: e in c.extras <==> e in Extras && e.id in extraIds
    {
      Choice(item, qty, SelectExtras(Extras, extraIds), spice)
    }
  }
}
