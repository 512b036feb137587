# TableTap ordering engine in Dafny

This project models the client-side ordering engine of TableTap, a restaurant
ordering app. It covers:

- the diner's cart, which is an ordered list of lines with merge, remove,
  update and clear, plus its totals and tax;
- the order status state machine, as the status tracker, the dashboard's
  action table and the kitchen's shortcut define it;
- the order store, with the database's tables kept in memory.
  `placeOrder`'s sequence of inserts is modelled, including partial writes.
  So is `fetchOrders`' join back into orders, and the unguarded status write;
- the derived views the staff and customer pages build on top:
  - the dashboard columns and the kitchen filter;
  - the new-order alerts;
  - the progress timeline;
  - the menu category and search filters, and the availability toggle;
  - preference-based recommendations and the recommended-first order;
  - the analytics figures;
  - the menu loader that turns database rows into items and add-ons;
- the small validators around these:
  - the onboarding wizard's username check and step counter;
  - the login error classifier and submit rule;
  - the QR-code links and file names;
  - the item-customization dialog.

Each source file of the engine has one module: `CartContext`, `OrderCard`,
`OrderStatusTracker`, `OrdersDashboard`, `OrderNotifications`,
`ItemCustomization`, `CustomerMenu`, `MenuManagement`, `KitchenDisplay`,
`OrderContext`, `Analytics`, `Onboarding`, `UseMenu`, `TableQr` and `Login`.

Beside them, `MenuTypes` holds the shared entities and the line-pricing rule.
`OrderLifecycle` gathers the lemmas that relate the three definitions of the
status order. `Wrappers`, `Seqs` and `Strings` provide `Option`, `filter`/`reduce`,
and the JavaScript string operations the code uses: ASCII case mapping,
`includes`, number printing and `parseInt`.

How the code takes each form in Dafny:

- Stateful code becomes a class whose methods say their whole new state.
  This covers React state, refs, context providers and the in-memory database.
- Each loop of the source that builds a value becomes a `while` loop with
  invariants. It is proved to compute a recursive specification function.
  The one exception is the `forEach` of `useOrderNotifications` that raises
  one toast per new order: it has no result to build. It is modelled by the
  function `OrderNotifications.ToastsOf`, the list of toasts raised in order.
- Pure filters, maps and folds are functions, and lemmas state what they mean.

Money is exact (`real`), quantities are `int`, and a table number parsed from
a URL is `Num`, an integer or NaN.

I/O and other effects become parameters. This covers database answers and
failures (`Faults`, `Query`, `RpcResult`, `AuthResponse`), local-storage
contents (`StoredCart`), navigation (`navigatedTo` fields), toasts returned as
values, and the browser's URI encoding (an already-encoded string parameter).

Where the code behaves differently from what its comments and UI text suggest, the model follows the code:

- **Status writes are not checked.** `updateOrderStatus` writes any status over
  any other (`OrderContext.StatusWriteUnguarded`). The kitchen's Mark Prepared
  skips `preparing` (`OrderLifecycle.KitchenSkipsPreparing`).
- **Placing an order is not all-or-nothing.** The inserts run one after
  another with no transaction. A failure part-way leaves the rows already
  written (`OrderContext.PartialWritesPersist`), and `placeOrder` returns null.
- **An unknown table number falls back to the first table.** The group of
  orders then shows that table's number on the dashboard, not the one the
  diner scanned (`OrderContext.FallbackTableShown`).
- **Cart lines are matched on item id plus the add-on sequence**, in order.
  `removeItem` and `updateQuantity` act on every line with that item id.
  `addItem` accepts any quantity; only a positive one keeps quantities
  positive (`CartContext.MutationsKeepPositive`).
- **Fetched orders carry `subtotal == total` and `tax == 0`**, whatever was
  shown when the order was placed.
- **The sweet-tooth rule compares a category id with the text "Desserts".**
  Loaded items carry category ids, so it fires only for a category whose id
  is literally that text (`UseMenu.SweetRuleSeesCategoryId`).
- **Analytics revenue is base price times quantity**; add-ons are not counted.
- **The availability check runs on a delayed schedule.** Between typing and
  the check, the previous answer stays in force and can keep "Next" enabled
  (`Onboarding.Wizard.TypeUsername`).
- **A menu editor selection is a snapshot.** Editing a field after toggling
  that item's availability writes the old availability back
  (`MenuManagement.StaleSelectionRevertsToggle`).
- **A modifier group linked twice to one item contributes its options twice**
  (`UseMenu.DoubleLinkRepeatsOptions`).

## Model

| member | source | states |
|---|---|---|
| CartContext.FindIndex | frontend/src/contexts/CartContext.tsx:39-42 | the result is -1 or the index of a line with the same item id and the same add-on sequence, and no earlier line matches |
| CartContext.InitialLines | frontend/src/contexts/CartContext.tsx:18-26 | the stored lines when they parse; an empty cart when nothing is stored or it does not parse |
| CartContext.Added | frontend/src/contexts/CartContext.tsx:37-52 | the cart gains one line exactly when no line matches the item and add-ons, and otherwise keeps its length |
| CartContext.FindLine | frontend/src/contexts/CartContext.tsx:39-42 | the scanning loop returns exactly the first matching index, or -1 |
| CartContext.Removed | frontend/src/contexts/CartContext.tsx:54-56 | a line survives removal exactly when it was in the cart with a different item id |
| CartContext.Updated | frontend/src/contexts/CartContext.tsx:58-66 | a quantity ≤ 0 leaves no line for the id; otherwise the length is kept; every line for the id has the new quantity, and every other line was already in the cart |
| CartContext.WithQuantity | frontend/src/contexts/CartContext.tsx:63-65 | same length; every line with the id gets the new quantity and every other line is unchanged |
| CartContext.AddMerges | frontend/src/contexts/CartContext.tsx:38-48 | with a first matching line k: the length is kept, line k's quantity grows by the added quantity, and its instructions and item are kept; other lines are unchanged |
| CartContext.AddAppends | frontend/src/contexts/CartContext.tsx:50 | with no matching line, exactly one new line (item, quantity, add-ons, instructions) is appended at the end |
| CartContext.MergedLinePrice | frontend/src/contexts/CartContext.tsx:72-75 | adding q units to a line adds q unit prices to its price |
| CartContext.AddMergedTotals | frontend/src/contexts/CartContext.tsx:70-75 | a merge raises totalItems by the quantity and the subtotal by the quantity times the existing line's unit price |
| CartContext.AddAppendedTotals | frontend/src/contexts/CartContext.tsx:70-75 | an append raises totalItems by the quantity and the subtotal by (price + Σ add-on price) × quantity |
| CartContext.RemovedConcat | frontend/src/contexts/CartContext.tsx:54-56 | removal distributes over concatenation, so the other lines keep their relative order |
| CartContext.RemoveAbsent | frontend/src/contexts/CartContext.tsx:54-56 | removing an item with no line changes nothing |
| CartContext.UpdateToZeroRemoves | frontend/src/contexts/CartContext.tsx:58-62 | a quantity ≤ 0 is exactly removeItem, and no line with that id is left |
| CartContext.MutationsKeepPositive | frontend/src/contexts/CartContext.tsx:37-68 | if every quantity is ≥ 1, that stays true after remove, update, clear, and add with a positive quantity |
| CartContext.RepeatedAddsMerge | frontend/src/contexts/CartContext.tsx:37-51 | several adds of the same item and add-ons give exactly one new line at the end, whose quantity is the sum of the added quantities; earlier lines are kept |
| CartContext.ExampleTotals | frontend/src/contexts/CartContext.tsx:70-78 | ($10 + $1) × 2 + $5 gives a subtotal of 27, tax 2.7, total 29.7 and 3 items |
| CartContext.ReloadRestores | frontend/src/contexts/CartContext.tsx:19-35 | a cart reloaded from what the previous one stored starts with the same lines |
| CartContext.Cart.constructor | frontend/src/contexts/CartContext.tsx:19-35 | the cart starts with the stored lines, or empty when nothing or something unreadable is stored, and stores them back |
| CartContext.Cart.Total | frontend/src/contexts/CartContext.tsx:70-78 | total = subtotal × 1.1, where the subtotal is the sum of the line prices |
| CartContext.Cart.AddItem | frontend/src/contexts/CartContext.tsx:37-52 | the new lines are Added(old lines, …), and storage holds them |
| CartContext.Cart.RemoveItem | frontend/src/contexts/CartContext.tsx:54-56 | the new lines are Removed(old lines, id), and storage holds them |
| CartContext.Cart.UpdateQuantity | frontend/src/contexts/CartContext.tsx:58-66 | the new lines are Updated(old lines, id, q): removal when q ≤ 0, otherwise the quantity set on every line with that id |
| CartContext.Cart.ClearCart | frontend/src/contexts/CartContext.tsx:68 | the cart and its stored copy are empty |
| MenuTypes.LinePriceByAddOns | frontend/src/components/customer/OrderStatusTracker.tsx:112 | a line without add-ons costs price × quantity, and each add-on adds its own price once per unit |
| OrderCard.StatusVariant | frontend/src/components/dashboard/OrderCard.tsx:21-30 | the variant is "accent" for accepted and the status's own name for every other status |
| OrderCard.ButtonVariant | frontend/src/components/dashboard/OrderCard.tsx:90 | the action button is "accent" exactly for a pending order and "default" otherwise |
| OrderCard.ActionFor | frontend/src/components/dashboard/OrderCard.tsx:13-19 | only served has no action; every action moves to a different status, never back to pending |
| OrderCard.ActionRequest | frontend/src/components/dashboard/OrderCard.tsx:88-96 | there is no button exactly for a served order; otherwise the request names this order and the table's next status |
| OrderCard.NotesPanel | frontend/src/components/dashboard/OrderCard.tsx:71-81 | the notes panel shows exactly when its list is non-empty, and it lists only lines with instructions |
| OrderCard.BadgeTextsDistinct | frontend/src/components/dashboard/OrderCard.tsx:42-44 | the badge shows the capitalized status names, and no two statuses share one |
| OrderStatusTracker.IndexOf | frontend/src/components/customer/OrderStatusTracker.tsx:24 | indexOf gives -1 or the first position holding the status |
| OrderStatusTracker.CurrentIndexFound | frontend/src/components/customer/OrderStatusTracker.tsx:21-24 | every status is found at its own place in the order pending, accepted, preparing, ready, served (indices 0..4) |
| OrderStatusTracker.StepIndex | frontend/src/components/customer/OrderStatusTracker.tsx:14-21 | timeline step i's status sits at index i + 1 of the status order |
| OrderStatusTracker.HeaderLabel | frontend/src/components/customer/OrderStatusTracker.tsx:46 | pending shows "Waiting for confirmation"; every other status is shown as its name with the first letter capitalized |
| OrderStatusTracker.CompletedIsPrefix | frontend/src/components/customer/OrderStatusTracker.tsx:55-56 | a completed step implies every earlier step is completed |
| OrderStatusTracker.CompletedCountIsIndex | frontend/src/components/customer/OrderStatusTracker.tsx:54-56 | the number of completed steps equals the status index: 0 while pending, 4 once served |
| OrderStatusTracker.CompletedMonotone | frontend/src/components/customer/OrderStatusTracker.tsx:56 | a later status completes every step an earlier one completes |
| OrderStatusTracker.CurrentStep | frontend/src/components/customer/OrderStatusTracker.tsx:55-57 | the current step is completed, at most one step is current, and none is current while pending |
| OrderStatusTracker.ConnectorMeansNextCompleted | frontend/src/components/customer/OrderStatusTracker.tsx:71-76 | a connector is filled exactly when the following step is completed |
| OrderStatusTracker.InProgressShown | frontend/src/components/customer/OrderStatusTracker.tsx:87 | some step shows "In progress" exactly for accepted, preparing and ready; never when served or pending |
| OrderLifecycle.DashboardActionIsSuccessor | frontend/src/components/dashboard/OrderCard.tsx:13-19 | the action table offers exactly the successor in the status order (index + 1), and only served has none |
| OrderLifecycle.Next | frontend/src/components/customer/OrderStatusTracker.tsx:21 | only served has no successor; a successor sits one place later in the status order |
| OrderLifecycle.ButtonRequestsSuccessor | frontend/src/components/dashboard/OrderCard.tsx:33 | the button requests exactly the successor of the order's status, for that order |
| OrderLifecycle.KitchenSkipsPreparing | frontend/src/pages/KitchenDisplay.tsx:22-24 | Mark Prepared is the successor of preparing, but from accepted it jumps two places and skips preparing |
| OrderLifecycle.AdvanceIndex | frontend/src/components/dashboard/OrderCard.tsx:13-19 | n presses of the dashboard button move the status index by n, capped at served |
| OrderLifecycle.FourPressesServe | frontend/src/components/dashboard/OrderCard.tsx:13-19 | four presses take a pending order to served, with all four timeline steps complete |
| OrdersDashboard.FilterMatchesColumn | frontend/src/pages/OrdersDashboard.tsx:14-17 | each column's filter selects exactly the statuses assigned to that column |
| OrdersDashboard.ColumnsPartition | frontend/src/pages/OrdersDashboard.tsx:14-17 | every order appears in exactly one column, its own |
| OrdersDashboard.ColumnSizes | frontend/src/pages/OrdersDashboard.tsx:14-17 | the four column sizes add up to the number of orders |
| OrdersDashboard.ColumnsKeepOrder | frontend/src/pages/OrdersDashboard.tsx:14-17 | a column of a concatenation is the concatenation of the columns, so each column keeps the list order |
| OrdersDashboard.ServedShown | frontend/src/pages/OrdersDashboard.tsx:88 | at most 5 served cards, taken as a prefix of the served column: all of them when there are fewer than 5 |
| OrdersDashboard.HandleStatusChange | frontend/src/pages/OrdersDashboard.tsx:10-12 | the requested status is written unchanged through the store's status update, and nothing else changes |
| KitchenDisplay.KitchenOrders | frontend/src/pages/KitchenDisplay.tsx:18-20 | an order is listed exactly when it is accepted or preparing |
| KitchenDisplay.KitchenOrdersKeepOrder | frontend/src/pages/KitchenDisplay.tsx:18-20 | the cards keep the store's order: the list of a concatenation is the lists of its parts in turn, and one order is listed iff it needs the kitchen |
| KitchenDisplay.HandleMarkPrepared | frontend/src/pages/KitchenDisplay.tsx:22-24 | the store receives the status ready, whatever the order's current status |
| KitchenDisplay.EmptyStateMeaning | frontend/src/pages/KitchenDisplay.tsx:75-94 | the empty view shows exactly when loading is over and no order is accepted or preparing |
| KitchenDisplay.CountLabelPlural | frontend/src/pages/KitchenDisplay.tsx:43 | the label ends in "s" exactly when the count is not 1 |
| KitchenDisplay.CountLabel | frontend/src/pages/KitchenDisplay.tsx:43 | the label starts with the count in decimal, followed by " active order" for 1 and " active orders" otherwise |
| OrderNotifications.IdsOf | frontend/src/hooks/useOrderNotifications.ts:26-28 | the ids, one per order, in order |
| OrderNotifications.NewIds | frontend/src/hooks/useOrderNotifications.ts:33 | an id is new exactly when it is current and not previous |
| OrderNotifications.ToastsOf | frontend/src/hooks/useOrderNotifications.ts:44-50 | one toast per order, in order |
| OrderNotifications.OrderNotifier.constructor | frontend/src/hooks/useOrderNotifications.ts:8-10 | sound starts enabled with no previous ids |
| OrderNotifications.OrderNotifier.Evaluate | frontend/src/hooks/useOrderNotifications.ts:25-54 | a notification fires iff there are new ids and the previous list was non-empty; sound plays only then, when enabled and loaded; toasts are for the new orders; previous := current every time |
| OrderNotifications.OrderNotifier.ToggleSound | frontend/src/hooks/useOrderNotifications.ts:56 | soundEnabled is flipped and nothing else changes |
| OrderNotifications.FirstObservationSilent | frontend/src/hooks/useOrderNotifications.ts:35 | the first observation never notifies |
| OrderNotifications.RepeatSilent | frontend/src/hooks/useOrderNotifications.ts:54 | seeing the same ids again finds nothing new and does not notify |
| OrderNotifications.WatchesKitchenOrders | frontend/src/hooks/useOrderNotifications.ts:26-28 | the watched ids are the ids of the kitchen screen's orders |
| OrderNotifications.IdsOfFilter | frontend/src/hooks/useOrderNotifications.ts:33 | filtering ids equals filtering the orders by id and taking their ids |
| OrderNotifications.OneToastPerNewOrder | frontend/src/hooks/useOrderNotifications.ts:43-50 | with distinct ids, there are exactly as many toasts as new ids |
| OrderContext.TableNumberOf | frontend/src/contexts/OrderContext.tsx:53 | 0 when no table row matches; a non-zero result is the number of a matching table; when the first row matches, its number is the result |
| OrderContext.TableNumberOfFirstMatch | frontend/src/contexts/OrderContext.tsx:53 | the result is the number of the first table row whose id is the order's table id |
| OrderContext.AddOnsOf | frontend/src/contexts/OrderContext.tsx:72-76 | defined exactly when every option row exists; then one add-on per modifier row, in order, carrying the option's id, name and price |
| OrderContext.LinesOf | frontend/src/contexts/OrderContext.tsx:59-77 | one line per item row, in order, each the row's mapping; defined whenever every row maps |
| OrderContext.LineOf | frontend/src/contexts/OrderContext.tsx:59-77 | a mapped line carries the catalog item's id and price, isVeg only when the dietary flag is true, the row's quantity and notes, and one add-on per modifier row |
| OrderContext.LineOfDefined | frontend/src/contexts/OrderContext.tsx:59-77 | a row maps to a line exactly when its menu item exists and each of its modifier rows names an existing option |
| OrderContext.OrderOf | frontend/src/contexts/OrderContext.tsx:51-78 | defined exactly when all its lines map; then the row's id and status, the joined table number, subtotal = total = stored amount, tax 0, and its items are exactly the lines LinesOf builds from its item rows, one per row |
| OrderContext.OrdersOf | frontend/src/contexts/OrderContext.tsx:51-78 | one order per row, in order; a None result means some row's mapping fails |
| OrderContext.FetchedAmounts | frontend/src/contexts/OrderContext.tsx:51-58 | a fetched order has the row's id and status, subtotal = total = the stored amount, tax 0, and table 0 without a table join |
| OrderContext.FetchedAddOns | frontend/src/contexts/OrderContext.tsx:59-76 | a fetched line's add-ons are exactly AddOnsOf of its modifier rows: each option's id, name and price, in order; quantity and notes come from the row, and isVeg is false when absent |
| OrderContext.ResolveTable | frontend/src/contexts/OrderContext.tsx:113-129 | None exactly when there are no tables; otherwise the single matching table, else the first table |
| OrderContext.FirstFailure | frontend/src/contexts/OrderContext.tsx:146-174 | the first line whose item or modifier insert fails, or the line count when none does |
| OrderContext.StoredNotes | frontend/src/contexts/OrderContext.tsx:154 | empty or absent instructions are stored as null, others unchanged |
| OrderContext.ModifierRowsOf | frontend/src/contexts/OrderContext.tsx:161-166 | one modifier row per add-on, in order, with its option id and price |
| OrderContext.ItemRowsUpTo | frontend/src/contexts/OrderContext.tsx:146-157 | the rows of the first n lines, row i built from line i |
| OrderContext.ItemRowsNameTheirOrder | frontend/src/contexts/OrderContext.tsx:150 | every item row written for an order names that order, so the fetch's per-order filter finds them all |
| OrderContext.PartialWritesPersist | frontend/src/contexts/OrderContext.tsx:145-174 | when a later line fails, the earlier item rows stay written |
| OrderContext.SetStatus | frontend/src/contexts/OrderContext.tsx:203-206 | every row with the id gets the status; all others are unchanged |
| OrderContext.StatusWriteUnguarded | frontend/src/contexts/OrderContext.tsx:201-214 | any status overwrites any other, and the last of two writes wins |
| OrderContext.FallbackTableShown | frontend/src/contexts/OrderContext.tsx:120-129 | an order written against the fallback table is fetched with the first table's number |
| OrderContext.OrderStore.constructor | frontend/src/contexts/OrderContext.tsx:18-20 | no orders, no current order, loading |
| OrderContext.OrderStore.FetchOrders | frontend/src/contexts/OrderContext.tsx:23-86 | orders are replaced by the mapped rows when configured and the query and mapping succeed, otherwise kept; loading stops either way |
| OrderContext.OrderStore.PlaceOrder | frontend/src/contexts/OrderContext.tsx:108-199 | returns an order iff configured, a table resolves and every insert succeeds; the result is pending with the caller's items and amounts and becomes currentOrder; the order row (pending, total) goes in front; item and modifier rows are written up to the first failure |
| OrderContext.OrderStore.InsertLines | frontend/src/contexts/OrderContext.tsx:146-174 | writes each line's row and then its modifier rows, stopping at the first rejected insert; ok iff none is rejected |
| OrderContext.OrderStore.InsertLine | frontend/src/contexts/OrderContext.tsx:146-172 | one pass: the line's row is written unless its insert is rejected; its modifier rows are written only when it has add-ons and nothing was rejected; ok iff neither insert was rejected; no other table changes |
| OrderContext.OrderStore.UpdateOrderStatus | frontend/src/contexts/OrderContext.tsx:201-214 | the rows are SetStatus(rows, id, status) with no check of the current status; a failed write changes nothing |
| OrderContext.OrderStore.SetCurrentOrder | frontend/src/contexts/OrderContext.tsx:19 | currentOrder is set and nothing else changes |
| ItemCustomization.WithoutId | frontend/src/components/customer/ItemCustomizationModal.tsx:24 | an add-on survives exactly when its id differs |
| ItemCustomization.ToggleFlips | frontend/src/components/customer/ItemCustomizationModal.tsx:21-27 | after a click the id is selected iff it was not before; add-ons with other ids are kept |
| ItemCustomization.ToggleTwiceRestores | frontend/src/components/customer/ItemCustomizationModal.tsx:21-27 | clicking an unselected add-on twice restores the selection |
| ItemCustomization.FilterKeepsUnique | frontend/src/components/customer/ItemCustomizationModal.tsx:24 | filtering keeps ids distinct |
| ItemCustomization.ToggleKeepsUnique | frontend/src/components/customer/ItemCustomizationModal.tsx:21-27 | a click keeps the selected ids distinct |
| ItemCustomization.InstructionsArg | frontend/src/components/customer/ItemCustomizationModal.tsx:35 | empty text becomes undefined; other text is passed unchanged |
| ItemCustomization.TotalIsLinePrice | frontend/src/components/customer/ItemCustomizationModal.tsx:29-32 | the dialog's total is the price of the line it adds, and what appending that line adds to the cart subtotal |
| ItemCustomization.ItemCustomizer.constructor | frontend/src/components/customer/ItemCustomizationModal.tsx:16-18 | quantity 1, no add-ons, no instructions |
| ItemCustomization.ItemCustomizer.Decrement | frontend/src/components/customer/ItemCustomizationModal.tsx:88 | quantity becomes max(1, q - 1) and stays ≥ 1 |
| ItemCustomization.ItemCustomizer.Increment | frontend/src/components/customer/ItemCustomizationModal.tsx:97 | quantity grows by exactly 1 |
| ItemCustomization.ItemCustomizer.ToggleAddOn | frontend/src/components/customer/ItemCustomizationModal.tsx:21-27 | the selection becomes Toggled(old selection, add-on); nothing else changes |
| ItemCustomization.ItemCustomizer.SetInstructions | frontend/src/components/customer/ItemCustomizationModal.tsx:134 | the instructions are the typed text |
| ItemCustomization.ItemCustomizer.HandleAddToCart | frontend/src/components/customer/ItemCustomizationModal.tsx:34-37 | the cart's lines become Added(old lines, item, quantity, selection, instructions or none) |
| Onboarding.Flipped | frontend/src/pages/onboarding/OnboardingWizard.tsx:251 | the clicked key is inverted and the other three keys are kept |
| Onboarding.FlipTwice | frontend/src/pages/onboarding/OnboardingWizard.tsx:251 | two clicks on the same tile restore the preferences |
| Onboarding.AvailableIff | frontend/src/pages/onboarding/OnboardingWizard.tsx:55-86 | available iff the pattern matches and the server said yes; null iff shorter than 4 UTF-16 code units; a server error or exception gives false |
| Onboarding.LengthCountsCodeUnits | frontend/src/pages/onboarding/OnboardingWizard.tsx:57-62 | on ASCII names the length test is the character count; "ab😀" (four code units) passes the length test and is refused by the pattern |
| Strings.Utf16Length | frontend/src/pages/onboarding/OnboardingWizard.tsx:57 | `username.length` in UTF-16 code units: between the character count and twice it, and the character count on text inside the Basic Multilingual Plane |
| Onboarding.CheckUsername | frontend/src/pages/onboarding/OnboardingWizard.tsx:55-86 | unknown exactly when shorter than four UTF-16 code units, as `username.length` counts; available only when the pattern matches; a long enough name the pattern rejects is unavailable |
| Onboarding.LocalCheckFirst | frontend/src/pages/onboarding/OnboardingWizard.tsx:62-65 | a name the pattern rejects gets false whatever the server would say |
| Onboarding.TypedNameHasNoCapitals | frontend/src/pages/onboarding/OnboardingWizard.tsx:154 | the stored username has no upper-case letters |
| Onboarding.ProgressBounds | frontend/src/pages/onboarding/OnboardingWizard.tsx:353-357 | a shown bar is 20 × step percent wide, between 20 and 80, and grows with the step |
| Onboarding.Wizard.constructor | frontend/src/pages/onboarding/OnboardingWizard.tsx:30-43 | the wizard starts on the welcome step with theme classic, no preferences and nothing checked |
| Onboarding.Wizard.LoadProfile | frontend/src/pages/onboarding/OnboardingWizard.tsx:46-52 | a stored non-empty username replaces the field |
| Onboarding.Wizard.TypeUsername | frontend/src/pages/onboarding/OnboardingWizard.tsx:154 | the field holds the lower-cased text; availability is unchanged until the check runs |
| Onboarding.Wizard.RunUsernameCheck | frontend/src/pages/onboarding/OnboardingWizard.tsx:55-86 | availability becomes CheckUsername(username, server answer) |
| Onboarding.Wizard.PressNext | frontend/src/pages/onboarding/OnboardingWizard.tsx:88-90 | the step grows by exactly 1, except on the username step unless the name is available |
| Onboarding.Wizard.PressBack | frontend/src/pages/onboarding/OnboardingWizard.tsx:170 | the step shrinks by exactly 1 |
| Onboarding.Wizard.SelectTheme | frontend/src/pages/onboarding/OnboardingWizard.tsx:198 | the theme is the chosen id |
| Onboarding.Wizard.TogglePreference | frontend/src/pages/onboarding/OnboardingWizard.tsx:251 | the preferences become Flipped(old preferences, key) |
| Onboarding.Wizard.EditAbout | frontend/src/pages/onboarding/OnboardingWizard.tsx:284 | the about text is the typed text |
| Onboarding.Wizard.Finish | frontend/src/pages/onboarding/OnboardingWizard.tsx:92-117 | a successful save sends username, theme and preferences with about, and moves to the completion step; a failure stays on the step and records the error; saving is off afterwards |
| Onboarding.Wizard.StartOrdering | frontend/src/pages/onboarding/OnboardingWizard.tsx:119-124 | navigates to /dashboard |
| CustomerMenu.TableNumber | frontend/src/pages/CustomerMenu.tsx:19-20 | no (or an empty) parameter gives the configured table; otherwise the result is NaN exactly when parseInt finds no digits, and the parsed integer when it finds some |
| CustomerMenu.InitialCategory | frontend/src/pages/CustomerMenu.tsx:33-37 | a set category is kept; an unset one becomes the first category |
| CustomerMenu.InitialCategorySettles | frontend/src/pages/CustomerMenu.tsx:33-37 | running the effect again changes nothing |
| CustomerMenu.FilteredItems | frontend/src/pages/CustomerMenu.tsx:39 | an item is listed exactly when its category is the active one |
| CustomerMenu.RecommendedIff | frontend/src/pages/CustomerMenu.tsx:47-77 | recommended iff there are preferences, the veg filter passes and at least one rule fires (score ≥ 2); a veg diner is never recommended a non-veg item |
| CustomerMenu.Personalize | frontend/src/pages/CustomerMenu.tsx:47-77 | the item is kept; without preferences nothing is recommended and the reason is empty; a veg diner's non-veg item is unrecommended with no reason, the only case without one |
| CustomerMenu.RecommendedFirst | frontend/src/pages/CustomerMenu.tsx:79 | sorting keeps the number of entries |
| CustomerMenu.BadgeText | frontend/src/pages/CustomerMenu.tsx:217 | the badge is never empty: the recommendation reason when it is non-empty, otherwise "Recommended" |
| CustomerMenu.BadgeReasons | frontend/src/pages/CustomerMenu.tsx:62-69 | the sweet-tooth reason overrides the spicy one; a veg-only match shows "Recommended" |
| CustomerMenu.PersonalizeAll | frontend/src/pages/CustomerMenu.tsx:47 | one personalized entry per item, in order |
| CustomerMenu.RecommendedFirstSorts | frontend/src/pages/CustomerMenu.tsx:79 | the sorted list is a permutation with every recommended item before every other, and each group keeps its order |
| CustomerMenu.NoPreferencesPlainMenu | frontend/src/pages/CustomerMenu.tsx:47-79 | without preferences the category is shown in menu order and nothing is recommended |
| CustomerMenu.MenuPage.constructor | frontend/src/pages/CustomerMenu.tsx:25-27 | no category, cart closed |
| CustomerMenu.MenuPage.SyncCategory | frontend/src/pages/CustomerMenu.tsx:33-37 | activeCategory becomes InitialCategory(categories, old category) |
| CustomerMenu.MenuPage.SelectCategory | frontend/src/pages/CustomerMenu.tsx:198 | the active category is the chosen id |
| CustomerMenu.MenuPage.HandlePlaceOrder | frontend/src/pages/CustomerMenu.tsx:81-110 | an empty cart does nothing; a guest goes to login with the return path and the cart is untouched; otherwise the cart is placed as it stands, and only a returned order clears the cart, closes it and opens the status page; after a placed order loading is off and the orders are the refetched ones (or kept when the refetch fails), and a failed placement leaves loading as it was; the rows written are stated in full |
| MenuManagement.Visible | frontend/src/pages/MenuManagement.tsx:18-22 | listed iff in the category and the query occurs in the name or the description, ignoring case |
| MenuManagement.EmptySearchListsCategory | frontend/src/pages/MenuManagement.tsx:18-22 | an empty query keeps the whole category, in order |
| MenuManagement.SearchIgnoresCase | frontend/src/pages/MenuManagement.tsx:18-22 | the query's letter case does not matter |
| MenuManagement.AvailabilityToggled | frontend/src/pages/MenuManagement.tsx:24-28 | length is kept; items with the id have their availability inverted and others are unchanged |
| MenuManagement.ToggleTwice | frontend/src/pages/MenuManagement.tsx:24-28 | toggling twice is the identity |
| MenuManagement.PriceEdit | frontend/src/pages/MenuManagement.tsx:182 | the price field writes the parsed number, or 0 when it does not parse |
| MenuManagement.Apply | frontend/src/pages/MenuManagement.tsx:36 | an edit changes exactly its own field, and the id is kept |
| MenuManagement.Replaced | frontend/src/pages/MenuManagement.tsx:38 | same length; items with the updated id are replaced and others are unchanged |
| MenuManagement.ReplacedKeepsIds | frontend/src/pages/MenuManagement.tsx:38 | ids stay in place, and writing the same copy twice is writing it once |
| MenuManagement.StaleSelectionRevertsToggle | frontend/src/pages/MenuManagement.tsx:30-39 | editing a field of a selection taken before a toggle writes the old availability back |
| MenuManagement.MenuEditor.constructor | frontend/src/pages/MenuManagement.tsx:13-16 | the editor opens on the first category with no selection and an empty search |
| MenuManagement.MenuEditor.SetSearchQuery | frontend/src/pages/MenuManagement.tsx:53 | the query is the typed text |
| MenuManagement.MenuEditor.SelectCategory | frontend/src/pages/MenuManagement.tsx:65 | the category is the chosen id |
| MenuManagement.MenuEditor.ToggleAvailability | frontend/src/pages/MenuManagement.tsx:24-28 | the items become AvailabilityToggled(old items, id) |
| MenuManagement.MenuEditor.SelectItem | frontend/src/pages/MenuManagement.tsx:30-32 | the selection is the item |
| MenuManagement.MenuEditor.UpdateItem | frontend/src/pages/MenuManagement.tsx:34-39 | with no selection nothing changes; otherwise the edited copy becomes the selection and replaces each item with its id |
| Analytics.AvgOrderValue | frontend/src/pages/Analytics.tsx:9-11 | None (NaN) iff there are no orders; otherwise average × count = revenue |
| Analytics.TotalRevenue | frontend/src/pages/Analytics.tsx:10 | no orders give 0; a single order gives its total |
| Analytics.RevenueBounds | frontend/src/pages/Analytics.tsx:10 | revenue lies between n × the smallest and n × the largest order total |
| Analytics.RevenueAtLeast | frontend/src/pages/Analytics.tsx:10 | when every order total is at least lo, the revenue is at least lo per order |
| Analytics.RevenueAtMost | frontend/src/pages/Analytics.tsx:10 | when every order total is at most hi, the revenue is at most hi per order |
| Analytics.AvgWithinTotals | frontend/src/pages/Analytics.tsx:9-11 | the average lies between the smallest and the largest order total |
| Analytics.TallyCorrect | frontend/src/pages/Analytics.tsx:14-23 | per item id sold: count = Σ quantities, revenue = Σ base price × quantity, the name is the first line's, keys are listed once each |
| Analytics.Step | frontend/src/pages/Analytics.tsx:17-21 | the line's item has a record whose count grew by the line's quantity (from 0 when new); every other record is unchanged |
| Analytics.Tally | frontend/src/pages/Analytics.tsx:14-23 | at most one key per line visited |
| Analytics.AggregateItemCounts | frontend/src/pages/Analytics.tsx:14-23 | the nested loops compute exactly Tally(all lines), so their record means what TallyCorrect states |
| Analytics.TallyOrder | frontend/src/pages/Analytics.tsx:17-22 | the inner loop over one order's lines turns the record of the earlier lines into the record of those lines followed by this order's |
| Analytics.Values | frontend/src/pages/Analytics.tsx:25 | one value per key, in key order |
| Analytics.SortByCount | frontend/src/pages/Analytics.tsx:26 | the sort is a permutation |
| Analytics.SortedByCount | frontend/src/pages/Analytics.tsx:26 | the sort orders by non-increasing count |
| Analytics.SortKeepsTies | frontend/src/pages/Analytics.tsx:26 | items with equal counts keep their order (a stable sort) |
| Analytics.TopItems | frontend/src/pages/Analytics.tsx:25-27 | min(5, item count) entries, taken from the values |
| Analytics.TopItemsAreBest | frontend/src/pages/Analytics.tsx:25-27 | the top items are sorted by non-increasing count, and none left out outsold one shown |
| Analytics.AvailablePlusUnavailable | frontend/src/pages/Analytics.tsx:125 | available plus unavailable equals the menu size; all are available iff the count equals the size |
| Analytics.AvailableCount | frontend/src/pages/Analytics.tsx:125 | at most the menu size, and 0 exactly when no item is available |
| UseMenu.LinkModifierIds | frontend/src/hooks/useMenu.ts:56 | the links' modifier ids, in order |
| UseMenu.DedupIds | frontend/src/hooks/useMenu.ts:56 | never longer than the input |
| UseMenu.DedupIdsCorrect | frontend/src/hooks/useMenu.ts:56 | the deduplicated ids are the same set, without repeats, and empty only when there were no links |
| UseMenu.GroupNamesLastWins | frontend/src/hooks/useMenu.ts:69 | the map holds every group id, with the last row's name for a repeated id |
| UseMenu.BuildGroupNames | frontend/src/hooks/useMenu.ts:69 | the loop builds exactly GroupNames(rows) |
| UseMenu.OptionsOf | frontend/src/hooks/useMenu.ts:98 | an option is kept exactly when it belongs to the group |
| UseMenu.PushOptions | frontend/src/hooks/useMenu.ts:100-106 | the inner loop appends the group's add-ons, in order |
| UseMenu.FlattenAddOns | frontend/src/hooks/useMenu.ts:96-107 | the nested loops compute AddOnsFor(linked groups): each group's options in link order |
| UseMenu.GroupAddOnsFromOptions | frontend/src/hooks/useMenu.ts:100-106 | each add-on of a group is one of its options |
| UseMenu.AddOnsFromLinkedOptions | frontend/src/hooks/useMenu.ts:96-107 | each add-on comes from an option of a linked group, with its id and price, and named "group: option" or just the option's name |
| UseMenu.AddOnName | frontend/src/hooks/useMenu.ts:103 | the option's name ends the label; a named group prefixes it with "name: "; an unnamed or empty one adds nothing |
| UseMenu.DoubleLinkRepeatsOptions | frontend/src/hooks/useMenu.ts:91-107 | a group linked twice contributes its options twice |
| UseMenu.ModIdsFor | frontend/src/hooks/useMenu.ts:91 | a modifier id is listed iff the item links to it |
| UseMenu.ItemsOf | frontend/src/hooks/useMenu.ts:89-120 | one item per row, in order, each built from its row and its linked add-ons |
| UseMenu.MapItems | frontend/src/hooks/useMenu.ts:89-120 | the loop builds exactly ItemsOf(rows, …) |
| UseMenu.CategoriesOf | frontend/src/hooks/useMenu.ts:83-86 | one category per row, in query order |
| UseMenu.LoadFailsOnFirstFailure | frontend/src/hooks/useMenu.ts:19-80 | a load fails iff a query it makes fails, with the first failure's message; the group and option queries run only when there are links |
| UseMenu.MenuLoad | frontend/src/hooks/useMenu.ts:19-80 | a failed category query is the error; a loaded menu means the first three queries answered, with the categories mapped in order |
| UseMenu.NoLinksNoModifierQueries | frontend/src/hooks/useMenu.ts:61-80 | without links, the group and option answers do not matter |
| UseMenu.LoadedItemsFollowRows | frontend/src/hooks/useMenu.ts:89-120 | items follow the rows' id, price and category id; isVeg only when the flag is true; add-ons come from linked options |
| UseMenu.SweetRuleSeesCategoryId | frontend/src/hooks/useMenu.ts:115 | the sweet-tooth rule fires only for the category id "Desserts" |
| UseMenu.MenuLoader.constructor | frontend/src/hooks/useMenu.ts:6-9 | no categories or items, loading, no error |
| UseMenu.MenuLoader.FetchMenu | frontend/src/hooks/useMenu.ts:12-130 | without a restaurant id: the not-configured error and no queries; otherwise state follows MenuLoad, where an error keeps the lists; loading is off afterwards |
| TableQr.TableNumbers | frontend/src/components/dashboard/TableQRCodeModal.tsx:131 | exactly max(0, count) entries, entry i being i + 1 |
| TableQr.TableUrl | frontend/src/components/dashboard/TableQRCodeModal.tsx:32-34 | the link is the base URL, "/?table=", then text that parseInt reads back as the table number |
| TableQr.QrElementId | frontend/src/components/dashboard/TableQRCodeModal.tsx:137 | "qr-" followed by text that parseInt reads back as the table number |
| TableQr.DownloadName | frontend/src/components/dashboard/TableQRCodeModal.tsx:60 | "table-", text that parseInt reads back as the table number, then "-qr.png" |
| TableQr.ScannedLinkOpensTable | frontend/src/components/dashboard/TableQRCodeModal.tsx:32-34 | the menu page reads table n back from table n's link |
| TableQr.DecimalDistinct | frontend/src/components/dashboard/TableQRCodeModal.tsx:137 | different table numbers print differently |
| TableQr.NamesIdentifyTable | frontend/src/components/dashboard/TableQRCodeModal.tsx:136-138 | different tables get different element ids, links and download names |
| TableQr.PrintedTables | frontend/src/components/dashboard/TableQRCodeModal.tsx:72-75 | a table is printed iff it is in range and its element was found |
| TableQr.PrintAllCoversEveryTable | frontend/src/components/dashboard/TableQRCodeModal.tsx:72-75 | with the grid rendered, print-all covers every table 1..count, in order |
| Login.ClassifyError | frontend/src/pages/auth/Login.tsx:128-135 | "email not confirmed" wins first; then "invalid login credentials" or "invalid credentials"; then "user not found"; each phrase is looked for in the lower-cased message |
| Login.ClassifyPassesThroughOrRewrites | frontend/src/pages/auth/Login.tsx:128-135 | an unmatched message passes through unchanged; otherwise one of the three rewrites |
| Login.ClassifyIgnoresCase | frontend/src/pages/auth/Login.tsx:128-135 | messages differing only in case get the same rewrite |
| Login.SignInErrorText | frontend/src/pages/auth/Login.tsx:125-135 | the error text is never empty; a missing or empty message gives exactly "Could not sign in."; any other message is rewritten by ClassifyError |
| Login.FallbackUnchanged | frontend/src/pages/auth/Login.tsx:125-135 | "Could not sign in." contains none of the four phrases, so the rewriting leaves it as it is |
| Login.RedirectTarget | frontend/src/pages/auth/Login.tsx:46-47 | a non-empty redirectTo is the target; a missing or empty one gives "/dashboard" |
| Login.SubmitEnabledIff | frontend/src/pages/auth/Login.tsx:266 | enabled iff not loading and the chosen method's fields are filled in |
| Login.SubmitDisabled | frontend/src/pages/auth/Login.tsx:266 | disabled while either request is in flight, and while the chosen method's fields are empty |
| Login.LoginForm.constructor | frontend/src/pages/auth/Login.tsx:17-23 | empty fields, e-mail method, not loading, no error |
| Login.LoginForm.ChangeEmail | frontend/src/pages/auth/Login.tsx:26-29 | sets the e-mail and clears the error |
| Login.LoginForm.ChangePassword | frontend/src/pages/auth/Login.tsx:31-34 | sets the password and clears the error |
| Login.LoginForm.ChangePhone | frontend/src/pages/auth/Login.tsx:36-39 | sets the phone and clears the error |
| Login.LoginForm.SelectMethod | frontend/src/pages/auth/Login.tsx:216 | the method is the chosen one, and the fields are kept |
| Login.LoginForm.CheckSession | frontend/src/pages/auth/Login.tsx:42-51 | an existing session navigates to the redirect target |
| Login.LoginForm.Submit | frontend/src/pages/auth/Login.tsx:83-146 | an e-mail session redirects; a phone sign-in without error toasts that the code was sent; an error is rewritten, shown and toasted; loading is off afterwards |
| Login.LoginForm.GoogleLogin | frontend/src/pages/auth/Login.tsx:54-81 | a redirect keeps the spinner on; a failure stops it and shows the message |

## Left out

- Supabase I/O is left out: real queries, the realtime channel and its refetch on change, and network timing. Database answers and failures are method parameters. The database's where-clauses (restaurant id, availability flags, `in` lists) are taken as already applied to the rows passed in.
- `fetchOrders` inside `placeOrder` is not awaited in the source; the model runs it to completion before returning.
- `Object.values` order in the analytics tally: the model uses insertion order, but JavaScript lists integer-like keys first in numeric order. Item ids that look like integers would be listed differently.
- The 500 ms debounce of the username check, audio playback beyond the "play" decision, `testSound`, toast durations and relative-time formatting are timer and media effects of the browser.
- localStorage and JSON are modelled only as "present and parseable, absent, or unparsable" (`StoredCart`). A failed write to storage is not modelled.
- Floating-point money, `toFixed` formatting and `parseFloat` edge cases are left out. Prices are exact; a price text that does not parse is `None`.
- Canvas, SVG serialisation, print windows and theme class toggling are left out. The QR model keeps only the link, the element id, the file name and which codes the print sheet finds.
- The phone one-time-code verification after "OTP Sent", and the OAuth redirect round trip, are auth-service plumbing outside this engine.
- The mock data behind the analytics and menu editor pages, and the restaurant's configured default table, are parameters.
- MenuManagement.MenuEditor.constructor requires at least one category, because the source reads `categories[0].id` and would throw on an empty list.
- CartContext.Cart.AddItem: quantities are unbounded integers; a non-integer or non-finite JavaScript number passed as a quantity is not modelled.
- Strings.Lower: case mapping covers ASCII letters only; non-ASCII case folding by `toLowerCase` is not modelled.
- CartContext.Added: the source copies the array but not the line, then adds to the copied line's quantity, so the previous state's line object is changed too; the value model has no object identity and does not show that aliasing.
- Strings.TrimStart: skips ASCII white space only; `parseInt` also skips other Unicode white space, which the model does not.
- OrderContext.LineOf: a catalog item without a dietary flag gets `isVeg` false, where the source leaves the field undefined; both read as not vegetarian.
- OrderContext.OrderStore.PlaceOrder: a failing table-lookup query is not among the modelled faults; the lookups are taken to answer with the rows passed in.
