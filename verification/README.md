# URY restaurant POS: decision rules of the request handlers

This project models, in Dafny, the decision and record-building logic of
the URY restaurant point-of-sale backend (a Frappe/ERPNext app):

- **Manager-approved voiding** (`ury/ury/api/void_items.py`):
  `validate_manager` checks that a manager's roles meet the POS profile's
  "roles allowed for voiding" before it checks the password, and turns
  every failure into a tagged `{success, message}` reply.
  `process_void_item` builds one void record with `amount = rate * quantity`.
  It appends the record to a POS invoice's `custom_voided_items` only
  while the invoice is a draft (`docstatus == 0`).
- **POS read-side rules** (`ury/ury_pos/api.py`):
  - invoice-list paging with a look-ahead row and a `next` flag;
  - per-item quantity totals for a customer's favourite items;
  - printer and print-type selection;
  - the open-entry flag;
  - the 05:00 business-day check before closing;
  - splitting the order-type options text;
  - which menu a cashier or a table sees.
- **Invoice naming hook** (`ury/ury/hooks/ury_sales_invoice.py`): the
  naming series is chosen by order type from the restaurant's prefixes.
  For aggregator orders of a branch that marks them unpaid, `is_pos` is
  cleared.

Every database read is an input to the model:

- a sequence of rows, in the order the query returns them;
- a lookup function (`Directory`, `MenuStore`, `NamingLookups`);
- an `Option` for a single `get_value`.

The password check is an oracle that accepts, raises
`AuthenticationError`, or raises anything else. The clock is a parameter
in microseconds. Exceptions the handlers do not catch are `Err` values.
Caught exceptions are the failure replies the handlers return. Rates and
quantities are `real` (exact arithmetic).

`process_void_item` voids one item per call. A missing `item`/`rate` key,
or a `None` quantity, raises inside the handler and becomes the generic
failure.

`getPosInvoice` with `limit == -1` fetches `LIMIT 0`. The empty result
then counts as a full page, and `pop()` on the empty list raises
`IndexError` for every tab except "Recently Paid", which returns an empty
page. `InvoiceList.GetPosInvoice` states both outcomes.

Modules, one per file: `Wrappers` (Option, Result, truthiness), `Roles`
(the role-intersection test both handlers use), `VoidItems`,
`InvoiceList`, `FavItems`, `PosProfile`, `PosOpening`, `SelectOptions`,
`RestaurantMenu`, `SalesInvoiceNaming`.

## Model

| member | source | states |
|---|---|---|
| `Roles.AnyIn` | ury/ury/api/void_items.py:20-23 | `any(role in allowed for role in user_roles)` is true exactly when some user role occurs in the allowed list |
| `Roles.AnyInIsIntersection` | ury/ury/api/void_items.py:20-24 | the role test is the non-emptiness of the intersection of the two role sets; an empty list on either side never passes |
| `Roles.AnyInSymmetric` | ury/ury_pos/api.py:27-29 | the cashier test (billing roles tested against user roles) is the same relation as the void test, whichever list is iterated |
| `VoidItems.ValidateManager` | ury/ury/api/void_items.py:6-36 | success iff the user exists, the role query succeeds, the roles intersect and the password check accepts; an unknown user gives "user not found"; disjoint roles give "no permissions"; a rejected password gives the credentials message; any other exception gives the generic failure; it never raises |
| `VoidItems.RoleGateIgnoresPassword` | ury/ury/api/void_items.py:20-26 | a user without an allowed role is refused with "no permissions", and the reply is the same for every password and every password oracle (the password is never consulted) |
| `VoidItems.EmptyRoleListRefused` | ury/ury/api/void_items.py:20-24 | an empty void-role list, or a user with no roles, is always refused with "no permissions" |
| `VoidItems.BuildVoidRecord` | ury/ury/api/void_items.py:45-54 | a record is built iff the `item` and `rate` keys and the quantity are present; it carries `amount == rate * quantity`, `voided_by == username` and the given `session_user`, accountability and notes |
| `VoidItems.VoidReply` | ury/ury/api/void_items.py:41-68 | a failed manager check is returned unchanged; success iff the manager check passes, the record builds, the invoice loads, it is a draft and the save does not raise; a non-draft invoice gives the message carrying its `status`; a missing key, missing invoice or failed save give the generic failure |
| `VoidItems.PosInvoice.AppendVoidedItem` | ury/ury/api/void_items.py:58-59 | the record lands at the end of `custom_voided_items`, earlier records unchanged |
| `VoidItems.ProcessVoidItem` | ury/ury/api/void_items.py:39-68 | the reply is `VoidReply` of the manager check, the built record and the invoice found; `docstatus` and `status` are unchanged; the voided-items list gains exactly the built record at its end when the reply is a success and is untouched otherwise |
| `VoidItems.SuccessNeedsDraftAndManager` | ury/ury/api/void_items.py:42-60 | a successful void implies a draft invoice, an existing user whose roles meet the profile's void roles, and a record with `amount == rate * quantity` voided by that user |
| `InvoiceList.MatchesListFilter` | ury/ury_pos/api.py:182-239 | the WHERE clause of each tab: only rows of the branch; both draft tabs only drafts; "Unbilled" only unprinted rows with a table; "Draft" only printed rows or unprinted rows without a table (NULL or `''`); "Recently Paid" exactly the paid rows; any other tab exactly the rows of that status |
| `InvoiceList.Selected` | ury/ury_pos/api.py:173-245 | the rows kept are exactly the table rows of the branch that pass the list tab's WHERE clause ("Draft": draft and printed or without table; "Unbilled": draft, unprinted, table not NULL; "Recently Paid": status "Paid"; otherwise the status given) |
| `InvoiceList.SelectedAppend` | ury/ury_pos/api.py:173-245 | the filter keeps the table's `ORDER BY modified desc` order and each row's multiplicity: filtering a concatenation is the concatenation of the filtered parts |
| `InvoiceList.SelectedSingle` | ury/ury_pos/api.py:173-245 | a single row is kept exactly when it passes the tab's WHERE clause |
| `InvoiceList.Window` | ury/ury_pos/api.py:171-185 | `LIMIT n OFFSET s` yields at most n rows, namely the rows from position s on |
| `InvoiceList.LookAhead` | ury/ury_pos/api.py:248-252 | fetching n+1 rows yields n+1 exactly when rows remain past the first n; dropping the last of n+1 rows gives the n-row page; a short fetch equals the n-row page |
| `InvoiceList.GetPosInvoice` | ury/ury_pos/api.py:167-253 | a user of no branch raises; a negative `LIMIT` or `OFFSET` is rejected; `limit == -1` raises `IndexError` except for "Recently Paid", which returns an empty page; every returned row matches the tab's filter; otherwise, outside "Recently Paid" the data is the n-row page at the offset and `next` is true iff more matching rows exist past it, and for "Recently Paid" up to n+1 rows are returned with `next` false |
| `InvoiceList.DraftAndUnbilledOverlap` | ury/ury_pos/api.py:183-203 | an unprinted draft whose table is `''` passes both the "Draft" and the "Unbilled" WHERE clauses |
| `InvoiceList.UnprintedDraftTabs` | ury/ury_pos/api.py:183-203 | an unprinted draft with a NULL table is only in "Draft"; one with a non-empty table is only in "Unbilled" |
| `FavItems.FavItems` | ury/ury_pos/api.py:265-284 | the reply equals `Favourites` of all line items of the customer's invoices, taken in order |
| `FavItems.AddInvoiceItems` | ury/ury_pos/api.py:274-279 | after the inner loop the dict's key order and values are the distinct names and per-name totals of all items seen so far |
| `FavItems.TallyStep` | ury/ury_pos/api.py:275-279 | one `item_qty[name] += qty` step (creating the key at 0 if new) keeps the dict equal to the totals of the items seen, with new keys appended in insertion order |
| `FavItems.TallyTotals` | ury/ury_pos/api.py:277-279 | after `item_qty[name] += qty`, with the key created at 0 when new, every value in the dict is the total of the items seen, the new one included |
| `FavItems.AddItem` | ury/ury_pos/api.py:275-279 | one inner-loop step: the new dict's key order and values are the distinct names and totals of the items seen plus this item |
| `FavItems.TotalQtyAbsent` | ury/ury_pos/api.py:277-279 | a name no item carries has total 0 |
| `FavItems.DistinctSpec` | ury/ury_pos/api.py:277-283 | the dict's keys are exactly the item names seen, each once |
| `FavItems.DistinctFirstAppearanceOrder` | ury/ury_pos/api.py:277-283 | the dict's keys are in order of first appearance of the names in the item stream |
| `FavItems.FavouritesSpec` | ury/ury_pos/api.py:270-284 | one entry per item name that occurs, no name twice, names in order of first appearance, each `qty` the sum of `qty` over all line items with that name |
| `FavItems.SumTotalsAppendItem` | ury/ury_pos/api.py:277-279 | one more line item raises the sum of the totals over a duplicate-free list of names by its `qty` when its name is in the list, and leaves it unchanged otherwise |
| `FavItems.SumFavouritesIsSumTotals` | ury/ury_pos/api.py:281-283 | the reply entries built from the dict add up to the sum of the per-name totals of its keys |
| `FavItems.DistinctTotalsStep` | ury/ury_pos/api.py:274-279 | each line item raises the sum of the dict's values by exactly its own `qty`, whether its name is a new key or an existing one |
| `FavItems.SumTotalsOfDistinct` | ury/ury_pos/api.py:270-279 | the dict's values add up to the sum of `qty` over all line items |
| `FavItems.FavouritesConserveQuantity` | ury/ury_pos/api.py:270-284 | no quantity is lost or counted twice: the `qty` of the reply entries add up to the `qty` of all line items of the customer's invoices |
| `PosProfile.SelectPrinter` | ury/ury_pos/api.py:310-324 | the printer is that of the first `printer_settings` row with `bill == 1` (none if no such row); `print_type` is "qz" when `qz_print == 1`, else "network" when a bill row exists, else "socket"; `qz_host` is the profile's only when `qz_print == 1` |
| `PosProfile.SelectionConsistent` | ury/ury_pos/api.py:316-324 | `qz_host` is set only for "qz"; "network" implies a bill printer and no QZ; "socket" iff neither |
| `PosOpening.PosOpeningFlag` | ury/ury_pos/api.py:374-388 | the flag is 0 iff some opening entry has status "Open" and `docstatus == 1`, and 1 otherwise |
| `PosOpening.StartOfDay` | ury/ury_pos/api.py:450 | the result is 05:00:00.000000 on `now`'s date |
| `PosOpening.ReferenceDate` | ury/ury_pos/api.py:449-456 | strictly after 05:00 the checked date is yesterday; at or before 05:00 it is today |
| `PosOpening.ReferenceDateJumpsBack` | ury/ury_pos/api.py:450-456 | the checked date goes back a day between 05:00:00.000000 and one microsecond later |
| `PosOpening.UnclosedExists` | ury/ury_pos/api.py:458-465 | true iff some opening entry of the profile with status "Open" is posted on the given date |
| `PosOpening.ValidatePosClose` | ury/ury_pos/api.py:444-472 | "Success" when the daily-close flag is off; otherwise "Failed" iff an "Open" entry of the profile is posted on the reference date |
| `PosOpening.DraftOpeningBlocksClose` | ury/ury_pos/api.py:458-468 | the close check ignores `docstatus`: a draft "Open" entry on the reference date fails it although `posOpening` would not count it |
| `SelectOptions.Split` | ury/ury_pos/api.py:260 | `split("\n")` gives at least one piece, no piece contains a newline, and joining the pieces with newlines gives the string back |
| `SelectOptions.SplitJoin` | ury/ury_pos/api.py:260 | splitting the newline-join of newline-free pieces gives those pieces back |
| `SelectOptions.GetSelectFieldOptions` | ury/ury_pos/api.py:256-262 | `None` or empty options give `[]`; otherwise one `{"name"}` per line, in order, whose names joined with newlines reproduce the options text |
| `RestaurantMenu.ChooseMenu` | ury/ury_pos/api.py:27-88 | a cashier of no branch raises (`getBranch`), any other cashier gets the branch's active menu or none; a non-cashier with a table gets the restaurant's active menu, or the room's menu when `room_wise_menu` is set, and an error when that menu is empty or the table is unknown; a non-cashier without a table gets none |
| `RestaurantMenu.MenuEntries` | ury/ury_pos/api.py:45-56 | one entry per menu row, in order, with the row's fields and the item's image |
| `RestaurantMenu.GetRestaurantMenu` | ury/ury_pos/api.py:18-108 | errors of the menu choice are raised; no menu gives `[]`; a chosen menu gives its entries |
| `RestaurantMenu.CashierIgnoresTable` | ury/ury_pos/api.py:27-58 | for a cashier the reply does not depend on the table argument, and it raises exactly when the user belongs to no branch |
| `RestaurantMenu.NoRolesNoTableEmpty` | ury/ury_pos/api.py:27-58 | with no user roles or no billing roles and no (or an empty) table, the reply is `[]` |
| `SalesInvoiceNaming.NamingPlan` | ury/ury/hooks/ury_sales_invoice.py:8-26 | no change unless `restaurant_prefix == 1` and a restaurant is set; "Aggregators" orders get "SINV-" plus the aggregator prefix, others "SINV-" plus the invoice prefix; every series set starts with "SINV-"; `is_pos` is cleared only for aggregator orders whose branch has `custom_make_unpaid == 1`; a missing profile or prefix raises |
| `SalesInvoiceNaming.SalesInvoiceNamingHook` | ury/ury/hooks/ury_sales_invoice.py:8-26 | the invoice's `naming_series` and `is_pos` change as `NamingPlan` says and no other field changes; on a raise the invoice is untouched |

## Left out

- Database access (`get_doc`, `get_all`, `db.sql`, `db.get_value`, `db.exists`) and the SQL text: results are inputs. Row order is taken as given, for `ORDER BY modified desc` and for `item_name asc`.
- `check_password` hashing and the user directory: an oracle with three outcomes.
- `frappe.log_error`, `frappe.msgprint` and the Arabic message texts: messages are tags.
- Concurrent void requests: `invoice.save()` takes no lock, so the last save wins; not modelled.
- The in-memory copy of the invoice between `append` and a failing `save`: the model treats the invoice as the stored document, which a failing save leaves unchanged.
- Floating-point rates and quantities: `real`, exact.
- The wall clock and time zones: `now` is a parameter.
- `getTable`, `getBranchRoom`, `getModeOfPayment`, `getAggregator`, `getAggregatorItem`, `getAggregatorMOP`, `getPosInvoiceItems`: query-and-projection glue.
- The rest of `getPosProfile`: its field copying, `applicable_for_users[0]` and the undefined-variable path when the profile's branch differs.
- The Administrator case of `getBranch` (it returns `None`, and the queries then filter on a NULL branch): the model has a branch or the raise of a user of no branch. The unreachable `if not table` check inside the table branch is not modelled.
- `get_select_field_options`: the `get_meta`/`get_field` lookup is left out; the options text is an input.
- `fav_items`: the customer filter is left out; the input is the item lists of the customer's invoices.
- `ury/ury/hooks/ury_pos_opening_entry.py` is not part of this model (one query and a field copy). The same holds for `ury/ury/doctype/ury_order_type/ury_order_type.js` (a form filter).
- String comparison: the database compares with its collation (case-insensitive and ignoring trailing spaces under the usual `utf8mb4_unicode_ci`); the model compares exactly. So a raw status "paid" in `getPosInvoice`, or a table name of spaces under `COALESCE(restaurant_table, '') = ''`, match there but not in `InvoiceList.MatchesListFilter`; the same holds for the filters of `PosOpening.UnclosedExists`.
- InvoiceList.GetPosInvoice: `limit` and `limit_start` are integers; a non-numeric argument, which raises in `int()`, is not modelled.
