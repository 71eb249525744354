# Butcher-shop admin dashboard: page state machines

This project models the stateful core of the admin dashboard (React + axios) of a butcher
shop that sells through several e-commerce and delivery platforms. Each page is a small
sequential state machine. Its handlers update dialog flags, selections, drafts, lists and
one notification slot around HTTP calls.

Every backend answer is an **input**. A `Http.Reply<T>` is either `Ok(data)` or
`Fail(error)`, where `error` is an axios failure:

- a response with a status and an error body;
- a request that got no response;
- a request that could not be set up.

Every page class keeps a `requests` log of the calls it issued, as verb and path.

Modules, one per source file:

| module | source | what it holds |
|---|---|---|
| `Util` | — | `Option`, the JavaScript fallback from a falsy string to a default, decimal rendering of counters, ASCII lower-casing |
| `Http`, `Notice` | — | request/reply/axios-error shapes, notification and chip-colour vocabularies |
| `ApiConfig` | `src/config/api.ts` | the error normalisation and the pass-through interceptors |
| `Sync` | `src/pages/Sync.tsx` | the platform sync orchestrator: class `SyncView` over a `seq<Platform>` |
| `Orders` | `src/pages/Orders.tsx` | status update by id, the page slice, `statusColors`, class `OrdersView` |
| `LegacyOrders` | `src/pages/Orders.jsx` | the case-insensitive status-colour classifier |
| `Products` | `src/pages/Products.tsx` | the draft product, its field edits, the create/update decision, class `ProductsView` |
| `Categories` | `src/pages/Categories.tsx` | form open/close/submit and delete, class `CategoriesView` |
| `PlatformSettings` | `src/pages/PlatformSettings.tsx` | the `platformConfigs` table, the known-platform gate, the rendered form, class `SettingsView` |
| `LegacySync` | `src/pages/Sync.jsx` | the older sync page: `syncing`/`error` sequencing and the status panel |

Plain operations of the source are functions and lemmas. Handlers that change page state
are methods of a class with one field per React state variable. Each `for ... of` loop of
`Sync.tsx` is a `for` loop with invariants, in its own module-level method
(`RunConnectBatch`, `RunSyncBatch`). The handler calls that method.

Some points about the source that the contracts make explicit:

- **Stale snapshot in Sync.tsx.** The status refresh in the `finally` of `handleConnectAll`
  merges into the list as it was before the batch. `Sync.MergeDependsOnlyOnShape` shows
  this comes to the same result as merging into the updated list.
- **Categories.tsx never shows "Unknown error".** The page uses the instance of
  `src/config/api.ts`, which always rejects with a non-empty message, so that fallback is
  never taken (`Categories.ShownErrorIsNormalized`).
- **Categories.tsx can lose its success message.** A successful submit or delete whose
  reload fails ends with the reload's error, not with the success text
  (`Categories.FailedLoadOverwrites`).
- **Orders.tsx does not refresh the selected order.** A status update changes `orders`
  but not `selectedOrder`, so the edit dialog keeps showing the old status.
- **Products.tsx keeps the success message.** The page awaits its reload, and the reload
  never rejects, so the success notification always comes after any reload error and wins.

Request paths are written as the browser sees them:

- `Sync.tsx`, `Orders.tsx` and `PlatformSettings.tsx` call axios with absolute paths
  (`/api/...`).
- `Products.tsx` goes through the `/api` client of `src/services/api.ts`.
- `Categories.tsx` and `Sync.jsx` go through clients whose base URL comes from the
  environment. Their paths are relative to that base (`/categories`, `/sync/...`).

## Model

| member | source | states |
|---|---|---|
| Util.OrElse | src/pages/Sync.tsx:121 | `s || d` on strings: the result is `s` when `s` is non-empty, else `d`; never empty when `d` is not |
| Util.OptOrElse | src/pages/Sync.tsx:121 | `o || d` on an optional string: the value when present and non-empty, else the default |
| Util.NatToString | src/pages/Sync.tsx:199 | the `${n}` rendering is a non-empty digit string without a leading zero |
| Util.NatToStringRoundTrip | src/pages/Sync.tsx:199 | reading the rendered counter back as decimal digits gives the counter |
| Util.NatToStringInjective | src/pages/Sync.tsx:197-200 | distinct counts render to distinct texts, so the "X/Y" texts tell the counts apart |
| Util.Lower | src/pages/Orders.jsx:22 | `toLowerCase` on ASCII: same length, each letter lowered, everything else kept |
| Util.LowerIdempotent | src/pages/Orders.jsx:22 | lower-casing twice is lower-casing once |
| Http.ErrorDetail | src/pages/Orders.tsx:95 | the detail after `error?.message` falls back to 'Unknown error': the message when it is non-empty, exactly "Unknown error" otherwise |
| Http.ServerErrorOrMessage | src/pages/Products.tsx:84 | `error.response?.data?.error || error.message`: the server's error text when there is a response with a truthy one, else the axios message |
| ApiConfig.NormalizeError | src/config/api.ts:27-51 | a server response keeps its status and gives its error text, or "An error occurred"; no response gives 503 with the unavailable text; anything else gives 500 with the unexpected text; the message is never empty |
| ApiConfig.NormalizedMessageOrigin | src/config/api.ts:32-49 | every normalised message is one of the three fixed texts or the server's own error text |
| ApiConfig.StatusWithoutResponse | src/config/api.ts:36-49 | without a server response the status tells the two remaining cases apart: 503 iff no response, 500 iff a setup failure |
| ApiConfig.NormalizeIgnoresAxiosMessage | src/config/api.ts:27-51 | the normalised record does not depend on the axios error's own message |
| ApiConfig.OnRequest | src/config/api.ts:12-20 | the request interceptor passes the config, or the rejection, on unchanged |
| ApiConfig.Intercept | src/config/api.ts:23-52 | a success resolves with the unchanged data (iff the call succeeded); a failure rejects with exactly the normalised record |
| Sync.InitialPlatformsWellFormed | src/pages/Sync.tsx:59-102 | six platforms with distinct ids and names, all disconnected with last sync "Never" |
| Sync.ShapeKeepsDistinct | src/pages/Sync.tsx:59-102 | any list with the same ids and names in the same order still has distinct ids and names |
| Sync.MergeStatus | src/pages/Sync.tsx:118-122 | the merge keeps every platform's id, name and position; `connected` is the reported flag or false, `lastSync` the reported truthy text or "Never" |
| Sync.ConnectedIn | src/pages/Sync.tsx:120 | `connected` of the answer's entry for the id; false when the answer has no entry |
| Sync.LastSyncIn | src/pages/Sync.tsx:121 | the entry's truthy `lastSync` text, else "Never"; never empty |
| Sync.MergeDependsOnlyOnShape | src/pages/Sync.tsx:118-122 | two lists of the same shape merge to the same list, so the stale snapshot of the `finally` refresh does not matter |
| Sync.MergeIdempotent | src/pages/Sync.tsx:117-123 | refreshing twice with the same answer is refreshing once |
| Sync.MergeDefaults | src/pages/Sync.tsx:120-121 | a platform missing from the answer becomes disconnected with last sync "Never" |
| Sync.FindIndex | src/pages/Sync.tsx:134 | `find` by id: none iff no platform has the id, else the first one that has it |
| Sync.ActionName | src/pages/Sync.tsx:137 | the toggle calls "disconnect" iff the platform is connected, else "connect" |
| Sync.FlipConnected | src/pages/Sync.tsx:141-143 | same ids, names and last syncs; `connected` is negated exactly for the platforms with the id |
| Sync.FlipTwice | src/pages/Sync.tsx:141-143 | two successful toggles of one platform give the list back |
| Sync.FlipOnlyTarget | src/pages/Sync.tsx:141-143 | with distinct ids, a toggle changes the named platform's flag and leaves every other platform equal |
| Sync.FailureDetail | src/pages/Sync.tsx:175-183 | the detail of a failed call: the non-empty `response.data.message` of an unsuccessful answer, "Unknown error" when that message is missing or empty, and the rejection's own detail (its message, or "Unknown error") for a failed call |
| Sync.WithConnection | src/pages/Sync.tsx:164 | the filtered snapshot holds only platforms of the list with the given flag, and is empty iff no platform has it; which platforms it holds, and in what order, is stated by RankLocates, RankIncreasing and RankCovers |
| Sync.WithConnectionConcat | src/pages/Sync.tsx:164 | filtering distributes over concatenation |
| Sync.WithConnectionDistinctNames | src/pages/Sync.tsx:190-194 | the snapshot of a list with distinct names has distinct names, so matching results by name is unambiguous |
| Sync.RankLocates | src/pages/Sync.tsx:164-169 | a disconnected platform is the `Rank`-th entry of the snapshot, i.e. the `Rank`-th connect call |
| Sync.RankTail | src/pages/Sync.tsx:164 | dropping the first platform lowers every later rank by one exactly when that platform is in the snapshot |
| Sync.RankIncreasing | src/pages/Sync.tsx:164 | ranks strictly grow along the list, so the snapshot keeps list order and takes no platform twice |
| Sync.RankCovers | src/pages/Sync.tsx:164 | every snapshot entry is a platform with the flag at its own rank, so the snapshot holds nothing else; with RankLocates and RankIncreasing, connect-all makes exactly one call per disconnected platform, in list order |
| Sync.ConnectResultOf | src/pages/Sync.tsx:170-183 | the pushed result names the platform, succeeds iff the answer had `success` set, and carries the failure detail otherwise |
| Sync.SyncResultOf | src/pages/Sync.tsx:221-232 | the pushed result names the platform, succeeds iff the answer had `success` set, and carries the answer's message or the rejection's detail |
| Sync.SuccessCount | src/pages/Sync.tsx:187 | `successCount` is at most the number of results, and equals it iff every result succeeded |
| Sync.SuccessCountConcat | src/pages/Sync.tsx:187 | the count of a concatenation is the sum of the counts |
| Sync.SuccessCountSingle | src/pages/Sync.tsx:187 | one result counts one iff it succeeded; with SuccessCountConcat the count is the number of successful results |
| Sync.FindResult | src/pages/Sync.tsx:191 | `results.find` by name: none iff no result has the name, else the first result that has it |
| Sync.ApplyConnectResults | src/pages/Sync.tsx:190-193 | same shape; each platform is set connected iff the result found under its name succeeded, else left equal |
| Sync.ConnectAllOutcome | src/pages/Sync.tsx:164-194 | after connect-all an already connected platform is unchanged, and a disconnected one becomes connected iff the answer to its own connect call succeeded, else stays unchanged |
| Sync.ConnectAllOutcomeOnPage | src/pages/Sync.tsx:161-194 | the same per-platform outcome for every list the page can hold (one shaped like the initial list), whose names are therefore distinct |
| Sync.ConnectResultsSucceed | src/pages/Sync.tsx:170-183 | each recorded result is a success exactly when its call answered with `success` set |
| Sync.ConnectSummary | src/pages/Sync.tsx:197-200 | a success iff every call succeeded, else a warning, with the text "Connected X/Y platforms successfully" |
| Sync.SyncSummary | src/pages/Sync.tsx:239-242 | a success iff every call succeeded, else an error, with the text "Sync completed: X/Y platforms synced successfully" |
| Sync.SummarySeverity | src/pages/Sync.tsx:197-200 | the summary is a success iff every call succeeded; otherwise connect-all warns and sync-all (lines 239-242) reports an error |
| Sync.SameShapeTrans | src/pages/Sync.tsx:59-102 | keeping the shape of the list is transitive |
| Sync.RunConnectBatch | src/pages/Sync.tsx:167-185 | the loop issues one connect call per snapshot platform, in order, and records one result per answer |
| Sync.RunSyncBatch | src/pages/Sync.tsx:219-234 | the loop issues one sync call per connected platform, in order, and records one result per answer |
| Sync.SyncView.constructor | src/pages/Sync.tsx:105-108 | the page starts with the initial list, both flags false and no notification |
| Sync.SyncView.CheckConnections | src/pages/Sync.tsx:115-130 | one GET; on success the list is the merge and the notification is kept; on failure the list is unchanged and the notification is "Failed to fetch platform status" |
| Sync.SyncView.ToggleConnection | src/pages/Sync.tsx:132-159 | an unknown id changes nothing and calls nothing; else one POST to connect/disconnect, then a flip and "Successfully …ed name" on success, or an unchanged list and "Failed to … name: detail" |
| Sync.SyncView.ConnectAll | src/pages/Sync.tsx:161-211 | one connect call per platform disconnected at the start, then the status refresh; the list is the merge after a successful refresh, else the applied results; the notification is the "Connected X/Y" summary or the refresh failure; `connecting` is false at the end |
| Sync.SyncView.SyncAll | src/pages/Sync.tsx:213-254 | one sync call per connected platform, then the refresh; the list changes only through the refresh; the notification is the "Sync completed: X/Y" summary or the refresh failure; `syncing` is false at the end |
| Sync.SyncView.RowControlsDisabled | src/pages/Sync.tsx:298-305 | each row's settings button and switch are disabled iff the page is busy; connect-all and sync-all re-enable them when the other action is not running |
| Sync.SyncView.DismissNotification | src/pages/Sync.tsx:319 | closing the snackbar clears the notification |
| Sync.SyncView.ConnectAllDisabled | src/pages/Sync.tsx:266 | Connect All is disabled iff busy or no platform is disconnected |
| Sync.SyncView.SyncAllDisabled | src/pages/Sync.tsx:275 | Sync All is disabled iff busy or no platform is connected |
| Orders.StatusColorsDistinct | src/pages/Orders.tsx:67-72 | the four statuses get four different colours, none of them the default |
| Orders.StatusColor | src/pages/Orders.tsx:67-72 | `statusColors`: warning iff pending, info iff processing, success iff completed, error iff cancelled; never the default |
| Orders.WithStatus | src/pages/Orders.tsx:115-117 | same length; every order with the id gets the new status, every other order is kept |
| Orders.WithStatusOnlyStatus | src/pages/Orders.tsx:115-117 | an update keeps each order's id and every field but the status |
| Orders.WithStatusAbsent | src/pages/Orders.tsx:115-117 | an id no order has leaves the list equal |
| Orders.WithStatusIdempotent | src/pages/Orders.tsx:115-117 | repeating an update changes nothing more |
| Orders.Slice | src/pages/Orders.tsx:171 | `slice(lo, hi)` with clipped bounds: the length of the clipped range, and entry k is element lo+k |
| Orders.PageRows | src/pages/Orders.tsx:170-171 | at most `rows` rows, none past the end; row k is order `page*rows+k` |
| Orders.PageRowsCover | src/pages/Orders.tsx:170-171 | with a positive page size, every order appears, on page `i / rows` at row `i % rows` |
| Orders.PageRowsInOrder | src/pages/Orders.tsx:170-171 | rows of one page appear in list order |
| Orders.OrdersView.constructor | src/pages/Orders.tsx:75-82 | empty list, loading, nothing selected, dialogs closed, page 0, 10 rows per page |
| Orders.OrdersView.LoadOrders | src/pages/Orders.tsx:88-100 | one GET; the list is replaced on success and kept on failure with "Failed to load orders: detail"; `loading` is false on both paths |
| Orders.OrdersView.ViewOrder | src/pages/Orders.tsx:102-105 | selects the order and opens the view dialog |
| Orders.OrdersView.EditOrder | src/pages/Orders.tsx:107-110 | selects the order and opens the edit dialog |
| Orders.OrdersView.UpdateStatus | src/pages/Orders.tsx:112-128 | one PATCH; on success the status update and "Order status updated successfully"; on failure the list is unchanged and "Failed to update order status: detail" |
| Orders.OrdersView.SelectStatus | src/pages/Orders.tsx:304 | the edit dialog's select runs the status update on the selected order, with its two notifications ("Order status updated successfully" or "Failed to update order status: detail"), and does nothing without a selection |
| Orders.OrdersView.DismissNotification | src/pages/Orders.tsx:322-325 | closing the snackbar clears the notification |
| Orders.OrdersView.ChangePage | src/pages/Orders.tsx:135-137 | the page becomes exactly the requested one |
| Orders.OrdersView.ChangeRowsPerPage | src/pages/Orders.tsx:139-142 | the page size changes and the page goes back to 0 |
| Orders.OrdersView.CloseView | src/pages/Orders.tsx:224 | closes the view dialog |
| Orders.OrdersView.CloseEdit | src/pages/Orders.tsx:295 | closes the edit dialog |
| Orders.OrdersView.VisibleRows | src/pages/Orders.tsx:144-171 | no rows while loading; otherwise exactly the rows of the current page (none past the end, else `min(rowsPerPage, |orders| - page*rowsPerPage)` of them), row k being order `page*rowsPerPage+k` |
| LegacyOrders.GetStatusColor | src/pages/Orders.jsx:21-32 | success iff the lower-cased status is "completed", warning iff "pending", error iff "cancelled"; never info |
| LegacyOrders.StatusColorIgnoresCase | src/pages/Orders.jsx:22 | a status and its lower-cased form get the same colour |
| LegacyOrders.DefaultOtherwise | src/pages/Orders.jsx:21-32 | the default colour iff the status is missing or not one of the three known names |
| LegacyOrders.AgreesWithStatusColors | src/pages/Orders.jsx:21-32 | agrees with the `statusColors` table of Orders.tsx on pending, completed and cancelled; "processing" gets the default colour here |
| Products.ProductExtensionality | src/pages/Products.tsx:28-38 | two products that agree on every field are equal |
| Products.Apply | src/pages/Products.tsx:165-170 | the edited field takes the new value and every other field keeps its own |
| Products.ApplyLastWins | src/pages/Products.tsx:165-170 | of two edits of one field the later wins |
| Products.ApplyCommutes | src/pages/Products.tsx:165-170 | edits of different fields commute |
| Products.ApplyAllKeeps | src/pages/Products.tsx:165-170 | a field no edit touches keeps its value through any sequence of edits |
| Products.SaveRequest | src/pages/Products.tsx:145-149 | PUT `/api/products/{id}` iff the draft has a non-empty id, else POST `/api/products` |
| Products.SaveAction | src/pages/Products.tsx:159 | the failure text says "update" iff the save is a PUT, "add" iff it is a POST |
| Products.SaveDone | src/pages/Products.tsx:154 | the success text says "updated" or "added" by the same test |
| Products.EmptyDraftCreates | src/pages/Products.tsx:50-60 | the fresh draft of Add Product, after any edits that leave the id alone, is saved with a POST |
| Products.ProductsView.constructor | src/pages/Products.tsx:63-70 | empty lists, loading, both dialogs closed, the empty draft, no selection |
| Products.ProductsView.LoadProducts | src/pages/Products.tsx:77-89 | one GET; the list is replaced on success, kept on failure with "Failed to load products: …"; `loading` is false on both paths |
| Products.ProductsView.LoadCategories | src/pages/Products.tsx:91-101 | one GET; the category list is replaced on success, kept on failure with "Failed to load categories: …" |
| Products.ProductsView.AddProduct | src/pages/Products.tsx:103-106 | the draft becomes the empty product and the dialog opens |
| Products.ProductsView.EditProduct | src/pages/Products.tsx:108-111 | the draft becomes the product and the dialog opens |
| Products.ProductsView.DeleteProduct | src/pages/Products.tsx:113-116 | selects the product and opens the confirmation |
| Products.ProductsView.DeleteConfirm | src/pages/Products.tsx:118-137 | no selection: nothing changes and nothing is called; otherwise one DELETE, then the reload and "Product deleted successfully", or "Failed to delete product: …"; the dialog is closed and the selection cleared on every path |
| Products.ProductsView.SaveProduct | src/pages/Products.tsx:139-163 | no category: no request and "Failed to add/update product: Please select a category"; otherwise the PUT or POST, then on success the reload, "Product added/updated successfully" and a closed dialog; on failure the dialog stays as it was |
| Products.ProductsView.InputChange | src/pages/Products.tsx:165-170 | the draft becomes the edit applied to it |
| Products.ProductsView.CloseModal | src/pages/Products.tsx:215 | closes the form dialog |
| Products.ProductsView.CancelDelete | src/pages/Products.tsx:294 | closes the confirmation and keeps the selection |
| Products.ProductsView.DismissNotification | src/pages/Products.tsx:313-317 | closing the snackbar clears the notification |
| Categories.ShownErrorIsNormalized | src/pages/Categories.tsx:90 | the page's "Unknown error" fallback (also at line 124) is never taken: the text shown is the normalised message |
| Categories.CategoriesAfterLoad | src/pages/Categories.tsx:80-93 | the list becomes the answer when it is truthy data, and is kept otherwise |
| Categories.NoticeAfterLoad | src/pages/Categories.tsx:80-93 | truthy data keeps the notification; falsy data gives "No data received from server"; a failure gives "Failed to load categories: " and the normalised message |
| Categories.FailedLoadOverwrites | src/pages/Categories.tsx:80-93 | a load without a list ends with an error notification whatever was showing before |
| Categories.SubmitRequest | src/pages/Categories.tsx:114-120 | PUT `/categories/{id}` iff a category is selected, else POST `/categories` |
| Categories.SubmitSuccess | src/pages/Categories.tsx:114-120 | "Category updated successfully" iff a category is selected, else "Category created successfully" |
| Categories.SubmitAction | src/pages/Categories.tsx:125 | the failure text says "update" iff the submit is a PUT, "create" iff a POST |
| Categories.SubmitFailure | src/pages/Categories.tsx:124-125 | the failure text is "Failed to update/create category: " and the normalised message |
| Categories.DeleteRequest | src/pages/Categories.tsx:136 | DELETE of the selected id, or of "undefined" when nothing is selected |
| Categories.CategoriesView.constructor | src/pages/Categories.tsx:69-74 | empty list, dialogs closed, nothing selected, empty form |
| Categories.CategoriesView.LoadCategories | src/pages/Categories.tsx:80-93 | one GET; list and notification as the load functions say |
| Categories.CategoriesView.Open | src/pages/Categories.tsx:95-104 | with a category: select it and copy its name and description; without: clear the selection and the form; the dialog opens either way |
| Categories.CategoriesView.Close | src/pages/Categories.tsx:106-110 | closed dialog, no selection, empty form |
| Categories.CategoriesView.Submit | src/pages/Categories.tsx:112-127 | the PUT or POST; on success the success text, the reload (which may replace the text) and a close; on failure the failure text with dialog, selection and form intact |
| Categories.CategoriesView.Delete | src/pages/Categories.tsx:129-132 | selects the category and opens the confirmation |
| Categories.CategoriesView.ConfirmDelete | src/pages/Categories.tsx:134-144 | one DELETE; on success the success text, the reload, the dialog closed and the selection cleared; on failure "Failed to delete category: …" with dialog and selection kept |
| Categories.CategoriesView.CancelDelete | src/pages/Categories.tsx:254 | closes the confirmation and keeps the selection |
| Categories.CategoriesView.SetName | src/pages/Categories.tsx:227 | only the form's name changes |
| Categories.CategoriesView.SetDescription | src/pages/Categories.tsx:235 | only the form's description changes |
| Categories.CategoriesView.DismissNotification | src/pages/Categories.tsx:272-275 | closing the snackbar clears the notification |
| Categories.CategoriesView.SubmitDisabled | src/pages/Categories.tsx:244 | the submit button is disabled iff the form name is empty; it is disabled after Close and when the dialog opens for a new category, and typing a name enables it |
| PlatformSettings.ConfigsWellFormed | src/pages/PlatformSettings.tsx:36-82 | every platform's form has at least two fields, all required, with distinct keys |
| PlatformSettings.ConfigsMatchSyncPage | src/pages/PlatformSettings.tsx:36-82 | the configured platforms are exactly the six of Sync.tsx, under the same names, so every settings button there opens a form |
| PlatformSettings.Known | src/pages/PlatformSettings.tsx:102 | the page shows a form iff a route id is given and is a key of `platformConfigs` (the empty id is none) |
| PlatformSettings.FieldValue | src/pages/PlatformSettings.tsx:186 | a field shows its stored value, or "" when the key is absent |
| PlatformSettings.InputChangeShown | src/pages/PlatformSettings.tsx:141-143 | typing into one field changes what that field shows and what no other field shows |
| PlatformSettings.ShownFields | src/pages/PlatformSettings.tsx:178-188 | one text field per configured field, in order, with its label, type, required flag, placeholder and value |
| PlatformSettings.Render | src/pages/PlatformSettings.tsx:145-188 | nothing iff the platform is unknown; a spinner iff known and loading; otherwise the title and one field per configured field with the stored value |
| PlatformSettings.RenderedFieldsRequired | src/pages/PlatformSettings.tsx:184 | every field of an opened form is shown as required |
| PlatformSettings.SettingsView.constructor | src/pages/PlatformSettings.tsx:90-95 | empty form data, loading, not saving |
| PlatformSettings.SettingsView.LoadSettings | src/pages/PlatformSettings.tsx:101-119 | an unknown platform navigates to `/sync` with no request; otherwise one GET, the data (or `{}`) on success, unchanged data and "Failed to load settings: …" on failure, `loading` false on both paths |
| PlatformSettings.SettingsView.BeginSave | src/pages/PlatformSettings.tsx:121-126 | without a platform id nothing happens; otherwise `saving` is set and the POST goes out |
| PlatformSettings.SettingsView.SettleSave | src/pages/PlatformSettings.tsx:127-138 | "Settings saved successfully" or "Failed to save settings: …", and `saving` false on both paths |
| PlatformSettings.SettingsView.Save | src/pages/PlatformSettings.tsx:121-139 | no id: a no-op; otherwise one POST, the outcome's notification, and `saving` false afterwards |
| PlatformSettings.SettingsView.InputChange | src/pages/PlatformSettings.tsx:141-143 | exactly one key of the form data is set |
| PlatformSettings.SettingsView.Leave | src/pages/PlatformSettings.tsx:154 | the back arrow and Cancel navigate to `/sync` |
| PlatformSettings.SettingsView.DismissNotification | src/pages/PlatformSettings.tsx:164 | closing the alert clears the notification |
| PlatformSettings.SettingsView.SaveDisabled | src/pages/PlatformSettings.tsx:207 | the save button is disabled iff a save is in flight: from the start of a save until its answer, and enabled again on both outcomes |
| LegacySync.PlatformsOnSyncPage | src/pages/Sync.jsx:30-36 | each of this page's platforms is on the Sync.tsx list under the same id, with the same name except "UberEats" |
| LegacySync.NoOdoo | src/pages/Sync.jsx:30-36 | this page lists five platforms against the six of Sync.tsx; Odoo, on the Sync.tsx list, is not among them |
| LegacySync.ImportRequest | src/pages/Sync.jsx:91 | an import of `platform` is a POST whose path is exactly `/sync/import/` followed by that platform id (so it starts with `/sync/import/` and ends with the id) |
| LegacySync.ImportRequestDistinct | src/pages/Sync.jsx:91 | two imports make the same call iff they name the same platform, and no import is the sync-all call |
| LegacySync.StatusRowOf | src/pages/Sync.jsx:176-186 | a row shows success iff the platform's reported `success` is set, and "Never synced" iff it has no truthy `lastSync` |
| LegacySync.StatusRows | src/pages/Sync.jsx:172-191 | one row per platform, in list order |
| LegacySync.UnreportedPlatformRow | src/pages/Sync.jsx:176-186 | a platform missing from the answer shows the error icon and "Never synced" |
| LegacySync.StatusRowLocal | src/pages/Sync.jsx:176-186 | a row depends only on its own platform's entry |
| LegacySync.LegacySyncView.constructor | src/pages/Sync.jsx:39-42 | not syncing, empty history and status, no error |
| LegacySync.LegacySyncView.LoadSyncHistory | src/pages/Sync.jsx:45-53 | one GET; the history is replaced on success, kept on failure with the error "Failed to load sync history" |
| LegacySync.LegacySyncView.LoadSyncStatus | src/pages/Sync.jsx:55-63 | one GET; the status is replaced on success, kept on failure with the error "Failed to load sync status" |
| LegacySync.LegacySyncView.Mount | src/pages/Sync.jsx:65-68 | the mount loads history, then status |
| LegacySync.LegacySyncView.Begin | src/pages/Sync.jsx:72-74 | before the call: `syncing` set, `error` cleared, the call issued |
| LegacySync.LegacySyncView.Settle | src/pages/Sync.jsx:75-84 | (and 92-101 for an import) success: a success snackbar, then the status and history reloads in that order; failure: the error and an error snackbar, no reload; `syncing` false on every path |
| LegacySync.LegacySyncView.SyncProducts | src/pages/Sync.jsx:70-85 | one POST `/sync/products`; on success "Sync started successfully", then both reloads, whose answers become the status and history (each kept when its own reload fails); on failure "Failed to start sync" with status and history kept; `syncing` false afterwards |
| LegacySync.LegacySyncView.Import | src/pages/Sync.jsx:87-102 | one POST `/sync/import/{platform}`; on success "Import from … started successfully", then both reloads, whose answers become the status and history (each kept when its reload fails); on failure "Failed to import from …" with status and history kept; `syncing` false afterwards |
| LegacySync.LegacySyncView.ActionsDisabled | src/pages/Sync.jsx:130 | every button of the page is disabled iff a sync or import is in flight: disabled by `Begin`, enabled again by `Settle` on every outcome |
| LegacySync.LegacySyncView.ShownStatus | src/pages/Sync.jsx:172-191 | the status panel shows the rows of the current status, one per platform |

## Left out

- HTTP transport, timeouts, retries, headers, auth tokens and request bodies are not modelled. A call is its verb and path, and its answer is an input.
- The 401 redirect to `/login` of `src/services/api.ts` and the `localStorage` token are not modelled. A 401 reaches Products.tsx as an ordinary failure.
- Concurrency is not modelled. Every handler runs to completion before the next starts, and a call that is not awaited completes right after its caller, with its own reply input. Overlapping status refreshes, or overlapping mount loads of Sync.jsx, can finish in another order in the browser.
- Sync.SyncView.ConnectAll, Sync.SyncView.SyncAll: the method takes exactly one answer per call of the batch (the `requires` on `|replies|`), because answers are inputs. The source has no such demand.
- The outer `catch` blocks of `handleConnectAll` and `handleSync` ("Failed to connect platforms", "Sync failed") are not modelled. Every call inside those `try` blocks catches its own failure, and nothing else there can throw on well-formed data.
- Values of the wrong JavaScript type are not modelled: a non-boolean `connected` or `success`, a `null` status or history body in Sync.jsx, a `null` error body in `src/config/api.ts`, `NaN` from `Number(...)` in the product form, `NaN` from `parseInt(event.target.value, 10)` in the rows-per-page select of `src/pages/Orders.tsx` (line 140), which the model takes as a natural number. `response.data.message` is treated as a string or absent.
- Object-prototype keys are not modelled. `platformConfigs["toString"]` is truthy in JavaScript. The model's `Known` only accepts the six configured ids.
- A route change of PlatformSettings.tsx, which re-runs `loadSettings` for the new id, is not modelled. `platformId` is fixed for the life of a `SettingsView`.
- Lower-casing covers ASCII letters only. `toLowerCase` also lowers other Unicode letters, which none of the status names contain.
- Rendering is not modelled beyond the rules above: date and locale formatting, `toFixed(2)` prices, product cards, the category product-count chip, history rows, theming, animation, and `window.print`.
- Console logging (`console.error` in `src/config/api.ts`, `Categories.tsx` and `Sync.jsx`) is an effect the model does not keep.
- Dashboard pages, `src/pages/Categories.jsx`, and the hard-coded empty `orders` list of `src/pages/Orders.jsx` hold no behaviour beyond constants, so they are not modelled. `getStatusColor` is modelled on its own.
