# Order front end: a Dafny model

This project models the state logic of a React front end that store
supervisors use to place orders with a central warehouse. There are three
parts:

- **Order creation** (`OrderView`). The supervisor picks a store, an order
  type and a date, then validates. The validate call returns a draft order id
  and the supply catalogue, which seed a supply quantity record. Quantities
  typed into the table are read with `parseInt(v) || 0`. Submission posts a
  payload: a header, plus one item per positive entry of the record that the
  order type's label selects ("Pedido de Pollo" selects the poultry record,
  anything else the supply record).
- **Pending orders** (`PendingOrdersView`). This is an in-memory list of mock
  orders. A stock check splits an order's products into insufficient and
  sufficient ones. Two tabs split the orders into poultry and supply orders.
  Validating or confirming rewrites the status of the orders that carry the
  selected id.
- **Navigation** (`App` in `app/page.tsx`). The shell keeps a history of
  views: navigating pushes, going back pops while more than one entry remains,
  and the last entry is on screen. With no signed-in account the login view is
  shown instead.

Modules and files:

| file | module | models |
|---|---|---|
| `js_text.dfy` | `JsText` | `parseInt` without a radix (section 19.2.5 of ECMA-262), `parseInt(v) \|\| 0`, `Number.prototype.toString` on integers below 10^21 |
| `calendar.dfy` | `Calendar` | dates and date-fns `format(d, "yyyy-MM-dd")` |
| `seq_util.dfy` | `SeqUtil` | `Array.prototype.filter` and subsequences |
| `quantities.dfy` | `Quantities` | `Record<string, number>` as an insertion-ordered list of entries, spread-update, `Object.values(..).some(q => q > 0)` |
| `order_payload.dfy` | `OrderPayload` | combobox lookups, seeding the supply record, the submission payload, `canSubmit` |
| `order_view.dfy` | `OrderView` | the order form's state and handlers, as the class `OrderView` |
| `pending_orders.dfy` | `PendingOrders` | stock check, tabs, status badges, status transitions, as the class `PendingOrdersView` |
| `navigation.dfy` | `Navigation` | view history and login gate, as the class `App` |

The network calls become parameters. `Validate` and `FetchInsumos` take the
outcome of the validate call, and `Submit` takes the outcome of the
create-order call. Each outcome is either a response body or an error
message. An `alert` becomes a returned string, and the posted payload is
returned too.

The model keeps these behaviours of the code:

- The store combobox (app/pages/OrderView.tsx:264-267) selects the store and
  hides the table, and keeps both quantity records. The date picker
  (app/pages/OrderView.tsx:307-310) sets only the date, so a shown table stays
  shown. Only the order-type combobox (app/pages/OrderView.tsx:278-283)
  empties the records.
- `handleSubmit` (app/pages/OrderView.tsx:168) checks only that a store, a
  type and a date are selected. The "at least one positive quantity" rule
  lives only in `canSubmit` (app/pages/OrderView.tsx:241-246), which disables
  the button. `Submit` therefore builds and posts a payload even when it has
  no items. And since `canSubmit` ignores the date, clearing the date after
  validating leaves the button enabled while pressing it posts nothing.
- `handleReset` (app/pages/OrderView.tsx:226-234) keeps `pedidoId` and
  `supplyCategories`.
- `id_pedido` is sent when the draft id is truthy
  (app/pages/OrderView.tsx:200), so an empty string is omitted as well.
- Negative quantities are stored as typed (app/pages/OrderView.tsx:142, 150).
  Only positive entries are sent (app/pages/OrderView.tsx:174).
- `parseInt` reads the longest leading number, so "1e3" is stored as 1, and
  text that does not start with a number, "Infinity" included, is stored as
  0.
- `fetchInsumos` raises `loading` before checking the selections
  (app/pages/OrderView.tsx:101-102). When a selection is missing it returns
  early and leaves `loading` raised.
- For "Pedido de Pollo", the item mapper (app/pages/OrderView.tsx:175-196)
  returns nothing for each kept entry. The items list therefore holds one
  `undefined` (here `None`) per entry, while `total_productos` still counts
  them.

## Model

| member | source | states |
|---|---|---|
| JsText.ParseInt | app/pages/OrderView.tsx:150 | `parseInt` without a radix yields a number only when the text, after leading white space, starts with a digit or with a sign followed by a digit; a negative result needs a leading "-" |
| JsText.ParseQuantity | app/pages/OrderView.tsx:142 | `parseInt(v) \|\| 0` stores the parsed integer whenever `parseInt` yields one, and 0 for NaN; so a non-zero stored value is always the parse, and a negative one needs a leading "-" |
| JsText.IntToText | app/pages/OrderView.tsx:201-202 | `toString` of an integer is non-empty, starts with "-" exactly when the integer is negative, and is otherwise all digits |
| JsText.UnreadableIsZero | app/pages/OrderView.tsx:142 | text that is empty, or whose first character is not white space, a sign or a digit, is stored as 0 |
| JsText.ParseDecimalPrefix | app/pages/OrderView.tsx:150 | a digit run followed by a non-digit reads as the run's decimal value; with a leading "-" it reads as the negated value (no clamping); with "+" it reads as the value |
| JsText.ParseHexPrefix | app/pages/OrderView.tsx:142 | `parseInt` reads a "0x"/"0X" prefix as hexadecimal, with or without a minus sign |
| JsText.IntTextRoundTrip | app/pages/OrderView.tsx:142 | typing the decimal text of any integer, negatives included, stores that integer |
| JsText.NatToText | app/pages/OrderView.tsx:201-202 | `toString` of a non-negative id is a non-empty digit string without a leading zero |
| JsText.NatToTextValue | app/pages/OrderView.tsx:201-202 | the id text reads back as the id |
| JsText.TrimStart | app/pages/OrderView.tsx:142 | `parseInt` skips exactly the leading white space |
| JsText.DigitRun | app/pages/OrderView.tsx:142 | `parseInt` reads the longest prefix of digits of the radix and stops at the first non-digit |
| Calendar.FormatYmd | app/pages/OrderView.tsx:203 | "yyyy-MM-dd" text is at least ten characters of digits and dashes, with a dash right after the all-digit year group |
| Calendar.PadDigitsValue | app/pages/OrderView.tsx:203 | a zero-padded field has exactly the field width and keeps the number's value |
| Calendar.FormatYmdShape | app/pages/OrderView.tsx:203 | "yyyy-MM-dd" is ten characters with dashes at positions 4 and 7, and its groups read back as year, month and day |
| SeqUtil.Filter | app/pages/OrderView.tsx:173-174 | a filter is never longer than its input, and every element it keeps satisfies the predicate |
| SeqUtil.FindIndex | app/pages/OrderView.tsx:265 | `find` stops at the first element satisfying the predicate; every earlier element fails it, and it runs off the end only when none satisfies it |
| SeqUtil.FilterMembers | app/pages/OrderView.tsx:173-174 | a filter keeps exactly the elements satisfying the predicate, in their original order |
| SeqUtil.FilterPartition | app/pages/PendingOrdersView.tsx:134-135 | two filters with complementary predicates split a list into two multisets that add up to it |
| Quantities.Put | app/pages/OrderView.tsx:143-146 | a spread update holds the written entry, grows the record by at most one entry, and keeps no entry that was not there before except the written one |
| Quantities.LookupEntries | app/pages/OrderView.tsx:173 | in a record with unique keys, each entry's key reads as that entry's value, as `Object.entries` pairs them |
| Quantities.HasPositive | app/pages/OrderView.tsx:243 | `Object.values(..).some(q => q > 0)` holds whenever some key reads as a positive value |
| Quantities.HasPositiveLookup | app/pages/OrderView.tsx:243 | in a record with unique keys, `some(q => q > 0)` holds exactly when some key reads as a positive value |
| Quantities.Positive | app/pages/OrderView.tsx:173-174 | the positive entries are entries of the record, each with a positive quantity, no more than the record holds, and there are some exactly when `some(q => q > 0)` holds |
| Quantities.Lookup | app/pages/OrderView.tsx:143-146 | reading a key yields undefined exactly when no entry has it, and otherwise a value stored under it |
| Quantities.PutLookup | app/pages/OrderView.tsx:143-146 | after writing a key, that key reads as the new value and every other key reads as before |
| Quantities.PutUnique | app/pages/OrderView.tsx:151 | writing a key never duplicates a key |
| Quantities.PutOrder | app/pages/OrderView.tsx:151 | overwriting a key keeps the key order; a new key is appended at the end |
| Quantities.PositiveEntries | app/pages/OrderView.tsx:173-174 | the kept entries are exactly those with a positive quantity, in record order; there are some exactly when `Object.values(..).some(q => q > 0)` holds |
| OrderPayload.SeedOf | app/pages/OrderView.tsx:116-121 | the seeded record has at most one entry per fetched product, and the last product's id holds that product's seed value |
| OrderPayload.ItemFor | app/pages/OrderView.tsx:175-196 | the mapper yields nothing exactly for "Pedido de Pollo"; otherwise an item with the entry's id and quantity |
| OrderPayload.BuildPayload | app/pages/OrderView.tsx:169-209 | the payload has no more items than the label-selected record has entries, counts its items in `total_productos`, and carries the fixed supervisor id and status 1 |
| OrderPayload.CanSubmitState | app/pages/OrderView.tsx:241-246 | `canSubmit` implies the table is shown, an order type is selected, its label is "Pedido de Pollo" or "Pedido de Insumos", and some record is non-empty |
| OrderPayload.FindStore | app/pages/OrderView.tsx:265 | no store is selected exactly when no store's id text equals the chosen value; otherwise the first store whose id text matches is selected |
| OrderPayload.FindOrderType | app/pages/OrderView.tsx:279 | the same for order types |
| OrderPayload.LastWithId | app/pages/OrderView.tsx:116-121 | finds the last fetched product with a given id, if there is one |
| OrderPayload.SeedLookup | app/pages/OrderView.tsx:116-122 | after seeding, an id is present exactly when some fetched product has it; its value is that of the last such product (`cantidad`, or 0 when absent), so a later duplicate overwrites an earlier one |
| OrderPayload.SeedUnique | app/pages/OrderView.tsx:116-122 | the seeded record holds each id once |
| OrderPayload.SeedStep | app/pages/OrderView.tsx:118-119 | each product the inner `forEach` visits adds exactly one write to the record built so far |
| OrderPayload.SeedSupplyQuantities | app/pages/OrderView.tsx:116-122 | the nested loops produce exactly the seeded record, with unique keys |
| OrderPayload.CollapsedCategories | app/pages/OrderView.tsx:159-163 | the collapsed map has exactly one key per fetched category id, each false |
| OrderPayload.FindProduct | app/pages/OrderView.tsx:180-182 | the lookup finds nothing exactly when no product has the id; otherwise it finds the first product with the id |
| OrderPayload.Items | app/pages/OrderView.tsx:175-196 | the mapper yields one item per kept entry, position by position |
| OrderPayload.PayloadItems | app/pages/OrderView.tsx:169-205 | the items correspond one for one, in order, to the positive entries of the label-selected record; `total_productos` equals their number; poultry items are undefined; each supply item carries its entry's id and positive quantity |
| OrderPayload.SupplyItemNames | app/pages/OrderView.tsx:176-196 | a supply item takes its name and sales unit from the first fetched product with its id; when there is none, it uses the id and "UND" |
| OrderPayload.PayloadHeader | app/pages/OrderView.tsx:198-208 | `id_pedido` is present exactly when the draft id is truthy, and is then that id; the store and type ids are their decimal texts; the supervisor id is fixed; the status is 1; the date is in yyyy-MM-dd form |
| OrderPayload.CanSubmitIffItems | app/pages/OrderView.tsx:241-246 | `canSubmit` holds exactly when the table is shown, the label is "Pedido de Pollo" or "Pedido de Insumos", and the payload would carry at least one item |
| OrderPayload.UnknownLabelNeverSubmits | app/pages/OrderView.tsx:241-246 | with any other label, submission is never enabled |
| OrderView.OrderView.constructor | app/pages/OrderView.tsx:76-88 | the form starts with nothing selected, empty records, table and modal hidden, and loading off |
| OrderView.OrderView.LoadStores | app/pages/OrderView.tsx:90-93 | the store list is replaced by the fetched list |
| OrderView.OrderView.LoadOrderTypes | app/pages/OrderView.tsx:95-98 | the order-type list is replaced by the fetched list |
| OrderView.OrderView.SelectStore | app/pages/OrderView.tsx:264-267 | the matching store is selected and the table hidden; nothing else changes |
| OrderView.OrderView.SelectOrderType | app/pages/OrderView.tsx:278-283 | the matching type is selected, the table hidden and both records emptied |
| OrderView.OrderView.SelectDate | app/pages/OrderView.tsx:307-310 | only the date changes; a shown table stays shown |
| OrderView.OrderView.ChangeChickenQuantity | app/pages/OrderView.tsx:141-147 | the poultry record gets `parseInt(value) \|\| 0` under the product name; every other name reads as before; keys stay unique |
| OrderView.OrderView.ChangeSupplyQuantity | app/pages/OrderView.tsx:149-152 | the same on the supply record, keyed by product id |
| OrderView.OrderView.FetchInsumos | app/pages/OrderView.tsx:100-130 | with a selection missing: nothing is fetched and `loading` stays raised; on success: the draft id, the categories and the seeded record are stored and `loading` cleared; on error: the "Error al validar: " alert, with the state otherwise kept |
| OrderView.OrderView.StoreFetched | app/pages/OrderView.tsx:113-122 | on success the draft id and categories are stored, the supply record becomes the seeded record and `loading` is cleared; the form invariant is kept |
| OrderView.OrderView.Validate | app/pages/OrderView.tsx:154-165 | a successful fetch also shows the table and collapses every fetched category; otherwise the table and categories are untouched |
| OrderView.OrderView.Submit | app/pages/OrderView.tsx:167-224 | with the three selections made, it posts the payload built from the current state; on success it stores the returned id and opens the success modal; on error it returns the "Error al enviar pedido:  " alert; `loading` ends false; without the selections nothing happens |
| OrderView.OrderView.ApplyCreateOutcome | app/pages/OrderView.tsx:211-223 | a resolved create call stores the returned id and opens the success modal; a rejected one alerts "Error al enviar pedido:  " with the message and keeps the id and modal; `loading` ends false |
| OrderView.OrderView.Reset | app/pages/OrderView.tsx:226-234 | clears the selections, the table, both records and the expanded categories, and keeps the draft id and categories; afterwards neither validation nor submission is enabled |
| OrderView.OrderView.ToggleCategory | app/pages/OrderView.tsx:236-238 | flips one category (an absent one counts as folded) and leaves every other key as it was |
| OrderView.OrderView.CanSubmit | app/pages/OrderView.tsx:241-246 | in a reachable state, an enabled submit button implies a selected store and order type and a shown table |
| OrderView.ShownTableNeedsOnlyDate | app/pages/OrderView.tsx:240 | once the table is shown, `canValidate` holds exactly when a date is selected |
| OrderView.ClearedDateScenario | app/pages/OrderView.tsx:168 | after validating and typing any text that reads as 25 for "p1", clearing the date leaves `canSubmit` true, yet submitting posts nothing and raises no alert |
| OrderView.ScenarioTyped | app/pages/OrderView.tsx:150 | typing "25" into a supply row stores 25 |
| OrderView.ScenarioPayload | app/pages/OrderView.tsx:198-208 | store 7, type 2 "Pedido de Insumos", 2024-12-10, draft "PI-100" and 25 of "p1" give the header and the single item "Cloro"/"Litros" |
| OrderView.SupplyOrderScenario | app/pages/OrderView.tsx:167-224 | driving the form through loading, selecting, validating, typing any text that reads as 25 and submitting posts exactly that payload |
| OrderView.NoStoreScenario | app/pages/OrderView.tsx:100-102 | validating with no store selected fetches nothing, leaves the table hidden and leaves `loading` raised |
| PendingOrders.GetValidationSummary | app/pages/PendingOrdersView.tsx:133-137 | every insufficient product has a positive shortfall (the "Faltante" figure, line 353), and every sufficient product can be delivered in full |
| PendingOrders.SummaryPartition | app/pages/PendingOrdersView.tsx:133-137 | the two lists partition the products: each product is in exactly one list, each list keeps the order's sequence, and the lengths add up |
| PendingOrders.StatusText | app/pages/PendingOrdersView.tsx:147-153 | the status label is a word of at least eight letters starting with "P" exactly for pending and with "C" exactly for confirmed |
| PendingOrders.StatusColor | app/pages/PendingOrdersView.tsx:139-145 | the badge class is a background colour class, yellow exactly for pending |
| PendingOrders.ActionsEnabled | app/pages/PendingOrdersView.tsx:217 | the action buttons are enabled exactly for pending and validated orders |
| PendingOrders.ChickenOrders | app/pages/PendingOrdersView.tsx:155 | the poultry tab lists only poultry orders, never more than the list holds |
| PendingOrders.SuppliesOrders | app/pages/PendingOrdersView.tsx:156 | the supply tab lists only supply orders, never more than the list holds |
| PendingOrders.StatusBadgesDistinct | app/pages/PendingOrdersView.tsx:139-153 | distinct statuses get distinct labels and distinct badge colours |
| PendingOrders.TabsPartition | app/pages/PendingOrdersView.tsx:155-156 | the poultry and supply tabs partition the orders by kind, in list order |
| PendingOrders.SetStatusWhere | app/pages/PendingOrdersView.tsx:108-110 | the status rewrite keeps the list's length and order; orders with the id get the new status and all their other fields; every other order is unchanged |
| PendingOrders.SetStatusIdempotent | app/pages/PendingOrdersView.tsx:106-124 | repeating a transition changes nothing more |
| PendingOrders.SetStatusKeepsTabs | app/pages/PendingOrdersView.tsx:155-156 | a transition never moves an order between tabs: each tab after it equals the tab before it with the same rewrite applied |
| PendingOrders.ConfirmLocksActions | app/pages/PendingOrdersView.tsx:215-225 | once confirmed, an order has both action buttons disabled; other orders keep their enabled state |
| PendingOrders.MockTabs | app/pages/PendingOrdersView.tsx:29-87 | the mock list has two orders on each tab, all pending and actionable |
| PendingOrders.PendingOrdersView.constructor | app/pages/PendingOrdersView.tsx:90-94 | the view starts on the mock list, with no selection, both dialogs closed and no order expanded |
| PendingOrders.PendingOrdersView.HandleValidate | app/pages/PendingOrdersView.tsx:96-99 | selects the order and opens the stock check |
| PendingOrders.PendingOrdersView.HandleConfirm | app/pages/PendingOrdersView.tsx:101-104 | selects the order and opens the confirmation |
| PendingOrders.PendingOrdersView.ConfirmValidation | app/pages/PendingOrdersView.tsx:106-114 | with a selection, the orders with its id become validated, the dialog closes and the selection clears; without one, the list is unchanged |
| PendingOrders.PendingOrdersView.ConfirmOrder | app/pages/PendingOrdersView.tsx:116-124 | the same with "confirmed" and the confirmation dialog |
| PendingOrders.PendingOrdersView.CancelValidation | app/pages/PendingOrdersView.tsx:366 | closes the stock check |
| PendingOrders.PendingOrdersView.CancelConfirm | app/pages/PendingOrdersView.tsx:418 | closes the confirmation |
| PendingOrders.PendingOrdersView.ToggleOrder | app/pages/PendingOrdersView.tsx:126-131 | flips one order's panel (an absent one counts as folded) and leaves every other key as it was |
| PendingOrders.ValidateThenConfirmScenario | app/pages/PendingOrdersView.tsx:106-124 | validating PO-001 marks only it and leaves its actions enabled; confirming it then disables them; the other three orders stay as they were |
| Navigation.Back | app/page.tsx:61-65 | going back drops exactly the last entry when more than one remains, and otherwise changes nothing |
| Navigation.BackUndoesNavigate | app/page.tsx:57-65 | navigating and then going back restores the previous history exactly |
| Navigation.RunWellFormed | app/page.tsx:57-65 | after any sequence of navigations and back presses, the history is non-empty with "home" at the bottom, and it has grown by at most one entry per press |
| Navigation.App.constructor | app/page.tsx:18 | the history starts as ["home"] |
| Navigation.App.CurrentView | app/page.tsx:23 | the current view is the last entry of the history |
| Navigation.App.NavigateTo | app/page.tsx:57-59 | appends the view, duplicates included, and makes it current |
| Navigation.App.GoBack | app/page.tsx:61-65 | pops only while more than one entry remains; the history is never empty |
| Navigation.App.ShowsBackButton | app/page.tsx:99 | when the back button is shown, the history holds more than one entry and going back drops exactly one |
| Navigation.App.Render | app/page.tsx:81-110 | with no account the login view is shown, whatever the history; otherwise the back button appears exactly off "home", and the home, order and pending-order views mount for their names |
| Navigation.OpenOrdersAndReturn | app/page.tsx:57-65 | opening "pedidos" from home and going back returns to ["home"], where no back button is shown |
| Navigation.HomeOnHome | app/page.tsx:120 | choosing "Inicio" on home stacks a second "home" |

## Left out

- Network I/O (stores, order types, validate, create order): each call's result is a parameter. The mount effect's error alert (app/pages/OrderView.tsx:132-139) is not modelled.
- Asynchrony: each handler runs to completion in one step. Interleavings, stale responses and React's batching of state updates are not modelled. `Submit` sets `loading` and clears it again within the same step.
- `Object.entries` lists integer-like keys ("2", "10") first, in ascending numeric order. The records here keep plain insertion order, which matches the code only for keys that are not array indices.
- `parseInt` results are numbers: digit runs past 2^53 lose precision there. The model reads digit runs exactly as unbounded integers and does not model floating point.
- JsText.IntToText: ids of magnitude 10^21 or more print in exponent form in JavaScript (`"1e+21"`); the model prints every integer in plain decimal digits, so it does not capture that form.
- `prod.cantidad || 0` is modelled for a present or missing integer. NaN and fractional quantities are left out.
- Date handling: a date is an already chosen calendar day. Time zones and the "PPP" and "dd 'de' MMMM" display formats are left out. `Calendar.FormatYmdShape` is stated for years below 10000.
- Rendering, styling, dialogs and collapsibles are presentation only. The unrelated global `status` read at app/pages/PendingOrdersView.tsx:169 has no effect on state.
- The static poultry catalogue (app/pages/OrderView.tsx:26-52) only feeds the table's rows, so it is not modelled.
- The page's own `isMobileMenuOpen` state (app/page.tsx:19) and its toggle button only show or hide the menu, so it is left out as presentation state.
- The identity-provider sign-in and sign-out, the login lookup and the browser-storage writes are foreign library code.
- `HomeView`, the menu helpers, the particle background, the login views and the auth context are not part of this model.
