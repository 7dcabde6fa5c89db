# Mimi Gukbap ordering page: a Dafny model

This project models the ordering logic of the Mimi Gukbap restaurant page
(`src/App.jsx`). It covers:

- a dish card, where a guest picks a quantity, a spice level and extras, and
  sees a running subtotal;
- the cart drawer, where lines are stepped up or down, removed and totalled;
- checkout, which turns the cart into an order record and appends it to the
  order log;
- the admin panel, which lists one day's orders matching a search, newest
  first, and exports them as a CSV file.

Modules, in dependency order:

| module | file | what it holds |
|---|---|---|
| `Collections` | `collections.dfy` | `Option`, an order-keeping `Filter` and its laws |
| `Strings` | `strings.dfy` | substring search, `join`, line-feed flattening, decimal rendering |
| `Menu` | `menu.dfy` | dishes, extras, the card's subtotal, the menu search, the `ItemCard` class |
| `Cart` | `cart.dfy` | cart lines, line subtotal and cart total, the quantity stepper, removal |
| `Shop` | `shop.dfy` | order records, the order log (`OrderStore`), the app state (`OrderApp`) |
| `Admin` | `admin.dfy` | the admin query: day filter, search filter, stable newest-first sort |
| `Csv` | `csv.dfy` | the CSV export, plus a reader for the same format |

State that the page changes in place is modelled by two classes:

- `Menu.ItemCard` is a card's quantity, ticked extras and spice.
- `Shop.OrderApp` is the app's cart, stage and last order.

The order log kept in local storage is the class `Shop.OrderStore`. Everything
computed from that state is a function, with lemmas about it.

Sources of time and identity are inputs rather than effects. The current
instant, the day key and every fresh id come in as parameters.

Two behaviours of the code are worth knowing:

- Nothing stops an empty cart from being submitted. Only the drawer's checkout
  button is disabled on an empty cart (`src/App.jsx:168`). The checkout page
  stays open while the drawer deletes lines, and `handleSubmit`
  (`src/App.jsx:187-192`) checks nothing. `Shop.OrderApp.Submit` therefore has
  no such precondition. `Shop.EmptyOrderCanBeLogged` shows a run that logs an
  order with no items and a total of zero.
- The export writes each item as `name` + `x` + quantity: an ASCII `x`, with no
  spaces (`src/App.jsx:273`). The checkout page's summary lines use `×`
  (`src/App.jsx:240`). The model writes what the export writes.

`Shop.OrderApp.Valid` holds while every cart line has a quantity of at least
one. A card never hands over less (`src/App.jsx:94`), and the drawer's stepper
never goes below one (`src/App.jsx:130`). Every operation of the app keeps it.

## Model

| member | source | states |
|---|---|---|
| Menu.MaxOne | src/App.jsx:94 | the stepper floor: the result is at least one and at least its argument, and is either the argument or one |
| Menu.SpiceLevels | src/App.jsx:102 | the selector offers "순한맛" and "보통" for every dish, and "매운맛" exactly for spicy dishes: three levels or two |
| Menu.DefaultSpice | src/App.jsx:69 | a fresh card's spice level is one the selector offers: "보통" for spicy dishes, "순한맛" otherwise |
| Menu.Toggled | src/App.jsx:70 | after ticking `id`, the ticked ids are the old ones with `id` flipped: present exactly when it was absent; other ids are untouched |
| Menu.ToggledTwice | src/App.jsx:70 | ticking the same box twice restores which ids are ticked, and restores the very list when the box started unticked |
| Menu.SelectExtras | src/App.jsx:72 | the chosen extras are exactly the catalogue entries whose id is ticked |
| Menu.SelectExtrasInCatalogueOrder | src/App.jsx:72 | the chosen extras keep catalogue order, whatever order they were ticked in |
| Menu.SelectExtrasByMembership | src/App.jsx:72 | two tick lists with the same members select the same extras |
| Menu.ExtrasPriceBounds | src/App.jsx:72 | the surcharge `ExtrasPrice` (the `reduce` over the chosen extras) is not negative when no price is, and is at least each chosen extra's price |
| Menu.ExtrasPriceConcat | src/App.jsx:72 | the surcharge of two lists laid end to end is the sum of their surcharges |
| Menu.SelectOneMore | src/App.jsx:71-74 | ticking a new id adds exactly the prices of the catalogue entries with that id to the surcharge |
| Menu.ExtrasDistinct | src/App.jsx:23-28 | the page's extras catalogue has no two entries with the same id |
| Menu.ItemTotalBounds | src/App.jsx:71-74 | the card subtotal `ItemTotal` is the unit price times the quantity when nothing is ticked, and at least the unit price for a quantity of one or more when no price is negative |
| Menu.TickRaisesSurcharge | src/App.jsx:70-72 | in a catalogue with distinct ids, ticking an unticked entry raises the surcharge by that entry's price |
| Menu.ItemTotalRaise | src/App.jsx:71-74 | when the chosen extras cost `p` more, the card subtotal rises by `p` times the quantity |
| Menu.TickRaisesItemTotal | src/App.jsx:70-74 | ticking an unticked extra raises the card's subtotal by that extra's price times the quantity |
| Menu.FilterMenu | src/App.jsx:397 | the search result is no longer than the menu and holds exactly the dishes whose name or description contains the search |
| Menu.FilterMenuSpec | src/App.jsx:397 | the menu search keeps exactly the dishes whose name or description contains the search, in menu order; the empty search keeps the whole menu |
| Menu.ItemCard.constructor | src/App.jsx:67-69 | a new card has quantity one, no extras ticked and the default spice level |
| Menu.ItemCard.Decrement | src/App.jsx:94 | the minus button lowers the quantity by one, but leaves one at one |
| Menu.ItemCard.Increment | src/App.jsx:96 | the plus button raises the quantity by one |
| Menu.ItemCard.ToggleExtra | src/App.jsx:70 | the checkbox replaces the ticked ids by their toggle; the card stays valid |
| Menu.ItemCard.ChooseSpice | src/App.jsx:101-102 | the selector sets the spice to one of the levels it offers for this dish |
| Menu.ItemCard.Subtotal | src/App.jsx:120 | the subtotal the card shows is the unit price times the quantity with nothing ticked, and never less than the unit price |
| Menu.ItemCard.Selection | src/App.jsx:121 | the add button hands over the card's own dish, quantity and spice, and the ticked catalogue extras in catalogue order; the quantity is at least one and the spice is an offered level |
| Cart.NewLine | src/App.jsx:121 | a cart line carries the dish, quantity, extras and spice of the card's choice and the fresh line id |
| Cart.LineSubtotalCases | src/App.jsx:153 | the line subtotal `LineSubtotal` counts a line without extras as its unit price times its quantity, and a line of quantity one as its unit price plus its surcharge |
| Cart.CartTotalBounds | src/App.jsx:129 | the cart total `CartTotal` (the `reduce` over the lines) is not negative when no subtotal is, and is at least every line's subtotal |
| Cart.CartTotalConcat | src/App.jsx:129 | the total of two carts laid end to end is the sum of their totals |
| Cart.CartTotalAppend | src/App.jsx:394 | adding a line raises the cart total by exactly that line's subtotal |
| Cart.CartTotalCons | src/App.jsx:129 | a cart's total is its first line's subtotal plus the total of the remaining lines |
| Cart.CardSubtotalIsLineSubtotal | src/App.jsx:153 | for any catalogue of extras (the page uses `Extras`), the subtotal the drawer shows for a line equals the subtotal its card showed |
| Cart.QtyUpdated | src/App.jsx:130 | the stepper keeps the cart's length and every line with another id; each line with that id has its quantity stepped and floored at one |
| Cart.QtyUpdatedSpec | src/App.jsx:130 | the stepper keeps line ids; a touched line gets at least one, and exactly the stepped value when that is at least one; all-positive quantities stay all positive |
| Cart.DecrementAtOneIsNoop | src/App.jsx:157 | the minus button on a line of quantity one leaves the cart unchanged |
| Cart.Removed | src/App.jsx:131 | removal gives a cart no longer than before, holding exactly the old lines with another id |
| Cart.RemovedSpec | src/App.jsx:131 | removal keeps exactly the lines with another id, in order; the kept and dropped lines together are the old cart; positive quantities stay positive |
| Cart.RemovedTotal | src/App.jsx:129-131 | after removal, the cart total drops by exactly the subtotals of the removed lines |
| Cart.SubtotalExample | src/App.jsx:153 | 살코기국밥 (9900) with rice (1000) and noodles (1500), twice, costs 24800 |
| Shop.OrderType.Label | src/App.jsx:206 | the three order types have the three distinct labels "매장", "포장" and "배달(준비중)" |
| Shop.NewOrder | src/App.jsx:188 | a new order's total is the total of its items; it has a name and a phone and is pending |
| Shop.NewOrderSpec | src/App.jsx:188 | a new order carries the cart as its items and the sum of their subtotals as its total; it is pending; it carries the id, instant and day given, and the form's type, name, phone, table, pickup time and memo |
| Shop.OrderStore.constructor | src/App.jsx:189 | with nothing stored, the log is empty |
| Shop.OrderStore.Append | src/App.jsx:189-191 | appending adds the order at the end and leaves every earlier order in place |
| Shop.OrderApp.constructor | src/App.jsx:381-384 | the app starts with an empty cart, on the menu, with no order shown |
| Shop.OrderApp.Total | src/App.jsx:129 | the total shown is zero for an empty cart; when no subtotal is negative it is not negative and is at least every line's subtotal |
| Shop.OrderApp.AddToCart | src/App.jsx:394 | the cart gains the new line at the end; the total rises by its subtotal; every quantity stays at least one |
| Shop.OrderApp.UpdateQty | src/App.jsx:130 | the cart becomes its stepped version, of the same length; every quantity stays at least one |
| Shop.OrderApp.RemoveItem | src/App.jsx:131 | the cart loses every line with that id, and its total drops by exactly their subtotals; every quantity stays at least one |
| Shop.OrderApp.Checkout | src/App.jsx:168 | the checkout page opens exactly when the cart is not empty; otherwise the stage is unchanged |
| Shop.OrderApp.Back | src/App.jsx:420 | the back button returns from checkout to the menu |
| Shop.OrderApp.Submit | src/App.jsx:187-192 | the order is built from the cart as it is at submission, with the cart's total; it is appended to the log; the cart is then emptied, the stage is done and the order is shown |
| Shop.EmptyOrderCanBeLogged | src/App.jsx:168 | add a fresh card's choice, open checkout, delete the line in the drawer, and submit: the order logged has no items and a total of zero |
| Admin.Matches | src/App.jsx:264 | an order matches only if it has a name, a phone or an item, and an order whose name or phone is the search text always matches |
| Admin.EmptySearchMatches | src/App.jsx:264 | the empty search matches exactly the orders that have a name, a phone or an item |
| Admin.Insert | src/App.jsx:265 | inserting adds exactly that order to the list's multiset |
| Admin.InsertKeepsOrder | src/App.jsx:265 | inserting into a newest-first list gives a newest-first list |
| Admin.SortNewestFirst | src/App.jsx:265 | the sort is a permutation of its input |
| Admin.SortIsNewestFirst | src/App.jsx:265 | the sorted list is newest first |
| Admin.InsertAtInstant | src/App.jsx:265 | an inserted order goes before the orders already listed at its own instant |
| Admin.SortIsStable | src/App.jsx:265 | orders placed at the same instant keep their relative log order |
| Admin.TwoFiltersAreOne | src/App.jsx:263-264 | filtering by day and then by search keeps exactly what the combined test keeps, in order |
| Admin.Query | src/App.jsx:262-266 | the list is no longer than the log, holds only log orders of that day that match the search, and is newest first |
| Admin.QuerySpec | src/App.jsx:262-266 | the list holds each log order of that day matching the search, as often as the log does and nothing else; it is newest first and stable |
| Admin.QueryAfterAppend | src/App.jsx:262-266 | a newly logged order joins the list exactly when it is of that day and matches the search; the orders listed before stay listed |
| Admin.EmptySearchListsTheDay | src/App.jsx:264 | when every order has a name, as every submitted order does, the empty search lists the whole day |
| Strings.FlattenLines | src/App.jsx:272 | every line feed becomes a space, every other character stays, and no line feed remains |
| Strings.NatToStringRoundTrip | src/App.jsx:273-274 | the decimal text of a count or total reads back as the same number |
| Strings.IntToString | src/App.jsx:274 | the decimal text is non-empty, made of digits and a sign, and starts with a minus exactly for negative numbers |
| Csv.DoubleQuotesCount | src/App.jsx:277 | doubling the quotes adds exactly one character per quote and leaves a value without quotes unchanged |
| Csv.Escape | src/App.jsx:277 | every written field is wrapped in double quotes |
| Csv.ParseQuotedEscaped | src/App.jsx:277 | reading an escaped field stops at its closing quote and returns the original value |
| Csv.UnescapeEscape | src/App.jsx:277 | unescaping an escaped field gives back the original value, quotes included |
| Csv.ParseEncodedRow | src/App.jsx:277 | a written row reads back as its fields |
| Csv.ParseSerialized | src/App.jsx:277 | a written table reads back as the same rows, with as many fields per row as were written |
| Csv.ItemSummary | src/App.jsx:273 | an item is written as its name, "x" and its quantity, followed by a "(+…)" group exactly when it has extras; the group holds the extras' names in line order joined with "+" |
| Csv.MemoField | src/App.jsx:272 | an absent memo gives an empty field; a present memo gives its text with every line feed turned into a space, of the same length and with no line feed |
| Csv.OrderRow | src/App.jsx:271-275 | an order's row has the header's ten columns: id, instant, type label, then name, phone, table and pickup time (empty when absent), the flattened memo, the item summaries joined with " / ", and the total |
| Csv.ExportRows | src/App.jsx:269-276 | the export has the header then one ten-field row per listed order, in list order |
| Csv.ExportCsv | src/App.jsx:277-278 | the file starts with the byte order mark, and the rest reads back as exactly the export rows |
| Csv.ExportReadsBack | src/App.jsx:268-278 | the exported file, after its byte order mark, reads back as exactly the rows written |
| Csv.EmptyExportIsHeaderOnly | src/App.jsx:269-278 | exporting no orders gives the byte order mark and the header row alone |
| Csv.AdminExportRows | src/App.jsx:262-278 | the admin export has one row per order the query selects, and reads back as those rows |

## Left out

- Rendering is not modelled: JSX, styling, animation, icons, the hero, the info card, the QR how-to and the footer.
- Opening and closing the cart drawer and the admin panel is not modelled. This is display state only; in particular `addToCart` also opens the drawer.
- Local storage is kept as an in-memory sequence of orders, without JSON encoding. A malformed stored value, which `JSON.parse` would reject, is not modelled.
- The clock and `uid` (`src/App.jsx:8-9`) are parameters. So are the ISO instant, its millisecond value and the day key.
- Price display through `Intl.NumberFormat` (`src/App.jsx:6-7`) is not modelled. Prices are unbounded integers in won, not JavaScript doubles.
- The export's `Blob`, object URL, download link and file name are not modelled. The model stops at the text of the file.
- `window.print` after submission and the reprint button are not modelled.
- The `table` URL parameter saved as a hint (`src/App.jsx:388-392`) is not modelled.
- The menu is fixed: `BaseMenu` and `Extras` are constants, and `menu` is never changed in the code.
- Tags, the spicy badge and the spice shown in the drawer are display only.
- Admin.SortNewestFirst: orders are compared by a millisecond field carried next to the ISO text. Parsing the text, and the `NaN` comparisons an unparsable date would cause, are not modelled.
- Stored orders: an order's `items` is always a list. A stored record without `items` (guarded by `?.` in the search, but not in the export) is not modelled.
- Substring search: strings are sequences of Unicode characters. JavaScript's `includes` works on UTF-16 code units, which differ only for characters outside the Basic Multilingual Plane.
- The order type is stored as its label, as the code does. The selector's delivery option is disabled (`src/App.jsx:206`), but the model does not exclude `Delivery` from a form.
