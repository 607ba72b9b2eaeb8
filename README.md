# Bar inventory front end: page state in Dafny

The bar inventory web app is a React front end over a REST inventory service.
Each of its pages keeps a small piece of client-side state:

- the list of rows it shows;
- the id of the row being edited, if any;
- one draft (`formData`), shared by the add form and the row editor;
- whether the add form is open;
- on some pages, a search term.

The page's handlers change that state after each network reply.
This project models that state logic page by page:

- Reservations
- Equipment
- Distributors
- Waste log
- Sales transactions
- Menu items
- Product inventory

It also models the pure view logic beside it:

- the case-insensitive search filters;
- the sales page's sort comparator and stable sort;
- the reservation payload builder.

## How the model is built

- **Rows.** A row is `Row(id, fields)`.
  - The primary key (`reservation_id`, `equipment_id`, …) is the `id`.
  - The other JSON fields form a map from names to `Value`s: a string, an integer or `null`.
  - A draft is such a map.
  - A key missing from a map reads as `undefined`.
- **Pages.** Each page is a class, one module per page. The fields are the React state variables. Each handler is a method that states its whole new state.
- **Frames.** Handlers use field-granular `modifies` clauses, e.g. `modifies this\`editingId`. So every field a handler does not list is unchanged.
  - For example, toggling the add form leaves the draft alone.
  - Cancel leaves the list and the draft alone.
- **Network and dialogs as parameters.** Each network reply is an input to the handler. So is the answer to `window.confirm`.
  - `Option<Row>` is the reply of a request whose returned row the page uses; `None` means the request failed. These are the Reservations add POST and the MenuItems create POST and update PUT.
  - `bool` is whether a request succeeded, for every request whose reply the page does not read:
    - the POSTs of Equipment, Distributors, WasteLog and Sales;
    - the PUTs of Equipment, Distributors and WasteLog;
    - the DELETEs of Equipment, Distributors, WasteLog and MenuItems.
  - The Reservations PUT and DELETE are not awaited, so they take no parameter.
  - `Option<seq<Row>>` is the list a refetch returns; `None` means the GET failed and the list is kept.
- **Pure view logic as functions.** The list updates the handlers perform are functions in module `Rows`:
  - `filter` by id is `WithoutId`;
  - `map` with spread is `OverlayById`;
  - `map` with replace is `ReplaceById`;
  - the one-key draft update is `WithField`.
- **Search.** `Search.Filtered` is the filter shared by three pages. It works over JavaScript's template-literal rendering, ASCII `toLowerCase` and `includes`, from module `Text`.
- **Sales sort.** It is a stable insertion sort on the page's comparator. `Sales.StableSortIsUnique` proves that any stable sort with that comparator gives the same list. This holds for `Array.prototype.sort`, which section 23.1.3.30 of ECMA-262 requires to be stable.

## Model

| member | source | states |
|---|---|---|
| Rows.Truthy | src/pages/Reservations.tsx:83 | JavaScript truthiness: false exactly for `undefined`, `null`, `""` and `0` |
| Rows.AfterFetch | src/pages/WasteLog.tsx:25-35 | a successful GET's list replaces the current one; a failed GET keeps it |
| Rows.Keep | src/pages/Reservations.tsx:116-118 | `filter`: never longer than the input, and every kept element satisfies the predicate |
| Rows.WithField | src/pages/Reservations.tsx:50-53 | the draft gains or overwrites exactly the named key; every other key keeps its value |
| Rows.WithoutId | src/pages/Reservations.tsx:115-119 | the result is a subsequence of the list (order kept); it holds exactly the rows whose id differs, each with its original multiplicity |
| Rows.WithoutIdIdempotent | src/pages/WasteLog.tsx:53-55 | filtering out the same id a second time leaves the list exactly as the first filter left it |
| Rows.OverlayById | src/pages/Reservations.tsx:66-72 | same length; ids kept; rows with another id unchanged; each row with the id becomes its fields overlaid by the draft, with the draft winning |
| Rows.OverlayByIdIdempotent | src/pages/Reservations.tsx:66-72 | saving the same draft twice equals saving it once |
| Rows.EditChangeSave | src/pages/Reservations.tsx:50-72 | edit a row, change one field, save: the row holds the new value there and its old fields elsewhere |
| Rows.ReplaceById | src/components/MenuItems.tsx:75-79 | same length; every item with the id becomes the returned item; every other item is unchanged and in place |
| Rows.ReplaceByIdIdempotent | src/components/MenuItems.tsx:75-79 | corollary of ReplaceById's contract: replacing with the same item twice equals doing it once |
| Rows.ActionCell | src/pages/WasteLog.tsx:274-308 | "View Only" iff not a manager; Save/Cancel iff a manager on the row being edited; Edit/Delete iff a manager on any other row |
| Text.Lower | src/pages/EquipmentPage.tsx:119-121 | same length; each character is lower-cased |
| Text.LowerIdempotent | src/pages/EquipmentPage.tsx:119-121 | lower-casing twice equals lower-casing once |
| Text.Contains | src/pages/EquipmentPage.tsx:121 | `includes`: a part is never longer than a text that includes it, and every prefix is included |
| Text.ContainsAt | src/pages/EquipmentPage.tsx:121 | `includes` holds iff the part occurs at some offset |
| Text.ContainsPrefixOfPart | src/pages/EquipmentPage.tsx:121 | a text that includes `a + b` includes `a` |
| Text.ContainsInSuffix | src/pages/EquipmentPage.tsx:119-121 | a part of `b` is a part of `a + b` |
| Text.ContainsTransitive | src/pages/EquipmentPage.tsx:121 | a part of a part of a text is a part of the text |
| Text.LowerKeepsContains | src/pages/EquipmentPage.tsx:119-121 | lower-casing both sides keeps an occurrence |
| Text.Decimal | src/pages/Reservations.tsx:84 | `${n}` of an integer below 1e21 in magnitude is non-empty, starts with `-` exactly when `n` is negative, has every other character a digit and no leading zero |
| Text.DigitsRoundTrip | src/pages/Reservations.tsx:84 | reading back the digits written for a natural number `n` gives `n` |
| Text.DecimalRoundTrip | src/pages/Reservations.tsx:84 | reading back `${n}` gives `n` for every model integer, so with Decimal's no-leading-zero clause the text is the canonical decimal representation of `n` (exact in the source only below 2^53) |
| Text.Render | src/pages/EquipmentPage.tsx:119 | a template literal renders `undefined` as "undefined", `null` as "null" and a string as itself; only the empty string renders empty |
| Text.ContainsEmpty | src/pages/EquipmentPage.tsx:121 | corollary of Contains's definition: every text includes the empty string |
| Text.BeforeFirst | src/pages/Reservations.tsx:83 | `split('T')[0]` is a prefix without a `T`, followed in the input by `T` when it is shorter |
| Text.BeforeFirstOfJoin | src/pages/Reservations.tsx:83-84 | splitting `d + "T" + rest` at the first `T` gives back `d` when `d` has no `T` |
| Search.SearchText | src/pages/EquipmentPage.tsx:119 | the searched text joins the rendered fields with spaces and includes each of them |
| Search.Matches | src/pages/EquipmentPage.tsx:119-121 | a row matches when its lower-cased search text includes the lower-cased term; every row matches the empty term |
| Search.FieldMatchShowsRow | src/pages/DistributorPage.tsx:94-98 | a row whose one searched field includes the term, ignoring case, is shown |
| Search.Filtered | src/pages/EquipmentPage.tsx:118-122 | the visible rows are an order-preserving subsequence; they are exactly the rows whose lower-cased joined fields include the lower-cased term; multiplicities are kept |
| Search.EmptyTermShowsAll | src/pages/ProductInventoryPage.tsx:41-44 | an empty term shows every row, in order |
| Search.TermCaseIgnored | src/pages/DistributorPage.tsx:94-98 | the filter gives the same rows for a term and its lower-cased form |
| Search.LongerTermNarrows | src/pages/DistributorPage.tsx:94-98 | every row shown for `term + more` is shown for `term` |
| Search.MatchesAt | src/pages/DistributorPage.tsx:94-98 | a row matches iff the lower-cased term occurs at some offset of its lower-cased text |
| Sales.TextLess | src/pages/SalesTransactionPage.tsx:78-83 | `<` on lower-cased names: lexicographic, never between equal texts, and a proper prefix comes first |
| Sales.KeyLess | src/pages/SalesTransactionPage.tsx:78-83 | `<` on keys never holds between equal keys |
| Sales.KeyLessStrictTotal | src/pages/SalesTransactionPage.tsx:78-83 | the key order the comparator uses is irreflexive, asymmetric, total and transitive |
| Sales.SortKey | src/pages/SalesTransactionPage.tsx:60-76 | the key is the lower-cased name, the quantity, or the date; any other field falls back to the date |
| Sales.CompareKeys | src/pages/SalesTransactionPage.tsx:78-84 | the comparator returns -1, 0 or 1 |
| Sales.Compare | src/pages/SalesTransactionPage.tsx:56-85 | the comparator passed to `sort` returns 0 exactly when the two transactions share a key |
| Sales.CompareKeysProperties | src/pages/SalesTransactionPage.tsx:78-84 | the comparator returns 0 iff the keys are equal, and it is antisymmetric |
| Sales.CompareKeysTransitive | src/pages/SalesTransactionPage.tsx:78-84 | "comes no later than" is transitive, so the comparator is consistent |
| Sales.CompareDirection | src/pages/SalesTransactionPage.tsx:78-84 | with "asc" a pair is in order iff its keys do not decrease; with any other order, iff they do not increase |
| Sales.Insert | src/pages/SalesTransactionPage.tsx:56-85 | one step of the stable sort: the result is one longer and holds the inserted transaction |
| Sales.InsertCount | src/pages/SalesTransactionPage.tsx:56 | an insertion adds the transaction once and keeps every other one |
| Sales.InsertSorted | src/pages/SalesTransactionPage.tsx:78-84 | inserting into a sorted list keeps it sorted |
| Sales.InsertSameKey | src/pages/SalesTransactionPage.tsx:84 | the inserted transaction goes before every transaction of its own key, which keep their order |
| Sales.SortTransactions | src/pages/SalesTransactionPage.tsx:56-85 | the sorted list has the same length and the same multiset as the list, and no adjacent pair is out of order |
| Sales.SortStable | src/pages/SalesTransactionPage.tsx:56-85 | the transactions sharing a key keep their input order |
| Sales.SortedKeysMonotone | src/pages/SalesTransactionPage.tsx:78-84 | with "asc" adjacent keys never decrease; with any other order they never increase |
| Sales.SortedUnique | src/pages/SalesTransactionPage.tsx:56-85 | two sorted lists whose per-key subsequences agree are equal |
| Sales.StableSortIsUnique | src/pages/SalesTransactionPage.tsx:56-85 | any sorted list that keeps each key's input order is the model's sort |
| Sales.AscDescReversed | src/pages/SalesTransactionPage.tsx:78-84 | with all keys distinct, the "desc" sort is the reverse of the "asc" sort |
| Sales.SalesTransactionPage.constructor | src/pages/SalesTransactionPage.tsx:23-32 | empty lists, sort by "transaction_date" "asc", empty inputs, not loading, sort in effect |
| Sales.SalesTransactionPage.SortEffect | src/pages/SalesTransactionPage.tsx:55-88 | the sorted list is the sort of the current list, field and order |
| Sales.SalesTransactionPage.FetchData | src/pages/SalesTransactionPage.tsx:34-48 | the list is replaced on success and kept on failure; loading ends; the sort is recomputed |
| Sales.SalesTransactionPage.SetSortField | src/pages/SalesTransactionPage.tsx:111-113 | the field changes and the sort is recomputed |
| Sales.SalesTransactionPage.SetSortOrder | src/pages/SalesTransactionPage.tsx:115-117 | the order changes and the sort is recomputed |
| Sales.SalesTransactionPage.Submit | src/pages/SalesTransactionPage.tsx:90-109 | sends iff confirmed; on success the three inputs are "" and the list is refetched; otherwise nothing changes |
| Reservations.StatusOrPending | src/pages/Reservations.tsx:90-91 | a truthy status is kept, a falsy one becomes "Pending"; the result is truthy |
| Reservations.ReservationDate | src/pages/Reservations.tsx:82-83 | a truthy `reservation_date` of the draft, rendered; otherwise the clock's ISO string up to its first `T`: a `T`-free prefix followed in the clock string by `T` when it is shorter |
| Reservations.Payload | src/pages/Reservations.tsx:81-92 | `reservation_time` is the date, "T", the time, ":00Z"; both statuses defaulted; every other key of the model's draft passed through; no other keys (the draft holds no primary key, see Left out) |
| Reservations.PayloadDateRoundTrip | src/pages/Reservations.tsx:82-84 | the payload's date-time splits back at "T" into the date it was built from |
| Reservations.PayloadDefaultsToToday | src/pages/Reservations.tsx:82-83 | a draft whose date is missing or falsy, such as the "" a cleared input leaves, gets the date part of the clock's ISO string |
| Reservations.ReservationsPage.constructor | src/pages/Reservations.tsx:19-29 | empty list, not editing, both statuses "Pending" in the draft, loading, form closed |
| Reservations.ReservationsPage.FetchData | src/pages/Reservations.tsx:31-44 | the list is replaced on success and kept on failure; loading ends |
| Reservations.ReservationsPage.InputChange | src/pages/Reservations.tsx:50-53 | only the named draft key changes |
| Reservations.ReservationsPage.Edit | src/pages/Reservations.tsx:55-58 | the row's id is being edited and the draft is an exact copy of the row's fields (its primary key held apart, see Left out) |
| Reservations.ReservationsPage.Cancel | src/pages/Reservations.tsx:354 | edit mode ends; the list and the draft are untouched |
| Reservations.ReservationsPage.Save | src/pages/Reservations.tsx:60-74 | the rows with the id get the draft overlaid, and edit mode ends, whatever the unawaited PUT answers |
| Reservations.ReservationsPage.AddReservation | src/pages/Reservations.tsx:76-109 | posts `Payload`; on success appends the reply, closes the form and empties the draft; on failure the list and draft are kept and the form is open |
| Reservations.ReservationsPage.Delete | src/pages/Reservations.tsx:111-120 | the list becomes `WithoutId`, whatever the unawaited DELETE answers |
| Reservations.ReservationsPage.ToggleAddForm | src/pages/Reservations.tsx:128 | the form flag flips; the draft is kept |
| Equipment.EquipmentPage.constructor | src/pages/EquipmentPage.tsx:27-35 | empty list, loading, not editing, empty draft, form closed, empty term |
| Equipment.EquipmentPage.Visible | src/pages/EquipmentPage.tsx:118-122 | exactly the rows whose name, manufacturer and distributor include the term, ignoring case, in order, each with its multiplicity; all rows for an empty term |
| Equipment.EquipmentPage.Controls | src/pages/EquipmentPage.tsx:329-346 | Save/Cancel iff the row is being edited, Edit/Delete otherwise |
| Equipment.EquipmentPage.FetchData | src/pages/EquipmentPage.tsx:38-52 | the list is replaced on success and kept on failure; loading ends |
| Equipment.EquipmentPage.AddEquipment | src/pages/EquipmentPage.tsx:59-71 | on success the form closes, the draft empties and the list is refetched; on failure nothing changes |
| Equipment.EquipmentPage.Save | src/pages/EquipmentPage.tsx:74-84 | on success edit mode ends and the list is refetched; on failure the list and the edited id are kept |
| Equipment.EquipmentPage.InputChange | src/pages/EquipmentPage.tsx:87-92 | only the named draft key changes |
| Equipment.EquipmentPage.Edit | src/pages/EquipmentPage.tsx:95-98 | the row is being edited and the shared draft is replaced by the row |
| Equipment.EquipmentPage.Cancel | src/pages/EquipmentPage.tsx:334 | edit mode ends |
| Equipment.EquipmentPage.Delete | src/pages/EquipmentPage.tsx:101-114 | sends iff confirmed; a successful delete refetches; anything else changes nothing |
| Equipment.EquipmentPage.ToggleAddForm | src/pages/EquipmentPage.tsx:144 | the form flag flips; the draft is kept |
| Equipment.EquipmentPage.SetSearchTerm | src/pages/EquipmentPage.tsx:137 | the term changes; the list does not |
| Distributors.DistributorPage.constructor | src/pages/DistributorPage.tsx:17-23 | empty list, loading, not editing, empty draft, form closed, empty term, manager |
| Distributors.DistributorPage.Visible | src/pages/DistributorPage.tsx:94-98 | exactly the rows whose name, address and location include the term, ignoring case, in order, each with its multiplicity; all rows for an empty term |
| Distributors.DistributorPage.Controls | src/pages/DistributorPage.tsx:242-276 | "View Only" iff not a manager; Save/Cancel on the edited row; Edit/Delete elsewhere |
| Distributors.DistributorPage.FetchData | src/pages/DistributorPage.tsx:25-35 | the list is replaced on success and kept on failure; loading ends |
| Distributors.DistributorPage.AddDistributor | src/pages/DistributorPage.tsx:41-53 | on success the form closes, the draft empties and the list is refetched; on failure the form and draft are kept |
| Distributors.DistributorPage.Save | src/pages/DistributorPage.tsx:55-65 | on success edit mode ends and the list is refetched; on failure the edited id stays |
| Distributors.DistributorPage.InputChange | src/pages/DistributorPage.tsx:82-87 | only the named draft key changes |
| Distributors.DistributorPage.Edit | src/pages/DistributorPage.tsx:89-92 | the row is being edited and copied into the shared draft |
| Distributors.DistributorPage.Cancel | src/pages/DistributorPage.tsx:253 | edit mode ends |
| Distributors.DistributorPage.Delete | src/pages/DistributorPage.tsx:67-80 | sends iff confirmed; a successful delete refetches; anything else changes nothing |
| Distributors.DistributorPage.AddButtonShown | src/pages/DistributorPage.tsx:118-122 | the add button is shown to a manager only, i.e. exactly when no row's action cell reads "View Only" |
| Distributors.DistributorPage.ToggleAddForm | src/pages/DistributorPage.tsx:118-122 | offered only when the add button is shown; the form flag flips; the draft is kept |
| Distributors.DistributorPage.SetSearchTerm | src/pages/DistributorPage.tsx:113 | the term changes; the list does not |
| WasteLog.WasteLogPage.constructor | src/pages/WasteLog.tsx:16-23 | empty list, loading, not editing, draft holding only `waste_date`, form closed, manager |
| WasteLog.WasteLogPage.Controls | src/pages/WasteLog.tsx:274-308 | "View Only" iff not a manager; Save/Cancel on the edited row; Edit/Delete elsewhere |
| WasteLog.WasteLogPage.FetchData | src/pages/WasteLog.tsx:25-35 | the list is replaced on success and kept on failure; loading ends |
| WasteLog.WasteLogPage.InputChange | src/pages/WasteLog.tsx:40-43 | only the named draft key changes |
| WasteLog.WasteLogPage.Edit | src/pages/WasteLog.tsx:45-48 | the entry is being edited and the draft is the entry |
| WasteLog.WasteLogPage.Cancel | src/pages/WasteLog.tsx:285 | edit mode ends |
| WasteLog.WasteLogPage.Delete | src/pages/WasteLog.tsx:50-56 | a resolved DELETE leaves exactly the entries with another id, in order; a rejected one changes nothing |
| WasteLog.WasteLogPage.AddWasteLog | src/pages/WasteLog.tsx:58-83 | submitted only from the shown form; on success the list is refetched, the form closes and the draft becomes `{}` (the date default is not restored); on failure the form stays open with its draft |
| WasteLog.WasteLogPage.Save | src/pages/WasteLog.tsx:85-103 | a PUT is sent iff the id is an index of the list; unless it fails, edit mode ends and the list is refetched, even when no PUT was sent |
| WasteLog.WasteLogPage.AddButtonShown | src/pages/WasteLog.tsx:109 | the add button is shown to a manager only, i.e. exactly when no row's action cell reads "View Only" |
| WasteLog.WasteLogPage.AddFormShown | src/pages/WasteLog.tsx:118 | the form is shown only while it is open and the add button is shown |
| WasteLog.WasteLogPage.ToggleAddForm | src/pages/WasteLog.tsx:109-116 | offered only when the add button is shown; the form flag flips |
| WasteLog.LastEntryGetsNoPut | src/pages/WasteLog.tsx:87 | corollary of SendsPut: with ids 1, 2, … in list order, saving the last entry sends no PUT |
| WasteLog.AsObject | src/pages/WasteLog.tsx:87 | an array as an object: its keys are exactly its indices, each mapped to its entry |
| WasteLog.SendsPut | src/pages/WasteLog.tsx:87 | `logId in wasteLog` holds exactly when `logId` is an index of the list |
| WasteLog.SendsPutIgnoresIds | src/pages/WasteLog.tsx:87-91 | corollary of SendsPut: whether a PUT is sent depends on the list's length only, never on the entries' ids |
| WasteLog.NoPutWhenIdsPastLength | src/pages/WasteLog.tsx:87-91 | corollary of SendsPut: when every id is at least the list's length, saving any entry sends no PUT |
| MenuItems.FormOf | src/components/MenuItems.tsx:101-109 | the form holds the item's name, category, description and price and nothing else |
| MenuItems.IsEditing | src/components/MenuItems.tsx:121 | `editId ?`: true exactly when there is an edit id and it is truthy, i.e. not 0 |
| MenuItems.SubmitLabel | src/components/MenuItems.tsx:160 | "Update" iff editing (a truthy id), "Create" otherwise |
| MenuItems.ZeroIdCreates | src/components/MenuItems.tsx:121 | corollary of IsEditing: an item with id 0 is submitted as a create |
| MenuItems.MenuItemsPage.constructor | src/components/MenuItems.tsx:14-21 | empty list, the empty form, not editing |
| MenuItems.MenuItemsPage.FetchMenuItems | src/components/MenuItems.tsx:25-36 | the list is replaced on success and kept on failure |
| MenuItems.MenuItemsPage.Change | src/components/MenuItems.tsx:38-41 | only the named form key changes |
| MenuItems.MenuItemsPage.CreateMenuItem | src/components/MenuItems.tsx:43-60 | on success the returned item is appended and the form reset; on failure nothing changes |
| MenuItems.MenuItemsPage.UpdateMenuItem | src/components/MenuItems.tsx:62-85 | sends nothing without an edit id; on success replaces by id, ends edit mode and resets the form; on failure nothing changes |
| MenuItems.MenuItemsPage.DeleteMenuItem | src/components/MenuItems.tsx:87-99 | on success the list is `WithoutId`; on failure nothing changes |
| MenuItems.MenuItemsPage.EditMenuItem | src/components/MenuItems.tsx:101-109 | the item is being edited and the form is its four fields |
| MenuItems.MenuItemsPage.Submit | src/components/MenuItems.tsx:121 | updates iff the edit id is truthy, creates otherwise (id 0 creates and stays in `editId`) |
| ProductInventory.ProductInventoryPage.constructor | src/pages/ProductInventoryPage.tsx:19-22 | both lists empty, loading, empty term, filter in effect |
| ProductInventory.ProductInventoryPage.FilterEffect | src/pages/ProductInventoryPage.tsx:39-45 | the shown list is the products whose name includes the term, ignoring case |
| ProductInventory.ProductInventoryPage.Loaded | src/pages/ProductInventoryPage.tsx:24-37 | the products are replaced on success and kept on failure; loading ends; the filter holds; with an empty term the shown list is the response |
| ProductInventory.ProductInventoryPage.SetSearchTerm | src/pages/ProductInventoryPage.tsx:59 | the term changes; the shown list is exactly the products matching it |

## Left out

- Requests, URLs, JSON and FormData encoding. Each request's outcome is a parameter. `alert` has no effect on state. `window.confirm` is a boolean parameter.
- Async interleaving. A handler's unawaited refetch is applied before the handler returns, with the outcome it is given. Races in which a later response wins are not modelled. For example, Reservations sets `loading` false before its GET resolves; the model only keeps the final state.
- WasteLog.WasteLogPage.Save: the successful-PUT branch refetches twice in the source. The model applies the same refetch outcome twice, so the two refetches cannot return different lists.
- Sales.SortTransactions: dates are integer timestamps. Parsing a date string, NaN keys and `Number()` of a non-numeric quantity are not modelled.
- Sales.TextLess: compares Dafny characters, not UTF-16 code units. `Text.Lower` lower-cases ASCII letters only; full Unicode `toLowerCase` is not modelled.
- The clock (`new Date().toISOString()`) is a string parameter of `Reservations.Payload` and of `WasteLog.WasteLogPage.constructor`.
- Menu item prices are opaque values (`Num`). Floats and `toFixed` are not modelled.
- Text.Decimal / Text.DecimalRoundTrip / Rows.Value.Num: numbers, row ids and quantities are unbounded integers, not IEEE doubles. `${n}` switches to exponent notation ("1e+21") from 1e21 in magnitude, and integers above 2^53 are not exact in the source; neither is modelled, so Decimal and its round trip hold in the source only below those bounds, and `Text.Render` puts the model's digits into the search text for every `Num`.
- Reservations `showCancelOption` is never read by the page, so it is not modelled.
- Equipment's distributor drop-down list is a display-only fetch. So is the Sales page's `menuItems` list.
- NotificationsPage, LoginPage, Sidebar, App routing and the `.jsx` sales form are not part of this model.
- Reservations.Payload: the model keeps the primary key out of the field map, so the draft that `Edit` fills holds no `reservation_id`. In the source, `handleEdit` copies the whole reservation into the shared draft. So an add submitted after an edit, with no add in between to clear the draft, posts that `reservation_id` too. `Payload` omits it. The same holds for the Equipment, Distributors and WasteLog add forms, whose request bodies are not modelled as values.
- Search.Filtered on ProductInventoryPage: a product whose `name` is not a string renders as text. A missing `name` renders as "undefined", a `null` one as "null" and a number as its digits, and each may match. In the source, `product.name.toLowerCase()` throws for any non-string name.
- The sales form's own input setters (`setMenuItemId`, `setQuantity`, `setTransactionDate`) are not modelled. They are plain assignments that no contract needs.
- Equipment and Distributors do not send the PUT payload `{id, ...formData}` as a value. Only the state change after the PUT is modelled.
- The menu item create and update bodies (`JSON.stringify(form)`) are not modelled as values.
