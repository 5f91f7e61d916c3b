# Angkringan admin panel: page logic in Dafny

This project models the client-side logic of a React admin panel for a food
stall's catalogue, accounts, reviews, stock and transactions. Each management
page fetches a collection and then derives what it shows from it:

- a case-insensitive search filter, on the customer page combined with a role filter;
- a pagination window;
- a draft (`formData`) behind an edit dialog, which is either created or updated on submit.

The transactions page also edits a transaction's line items and recomputes
its total. The logs page sorts the audit log by timestamp. The side
navigation picks its links by role and highlights the current one.

Layout, one module per source file plus four shared modules:

| file | module | models |
|---|---|---|
| collections.dfy | `Collections` | `Option`; `Array.prototype.filter` as `Filter`; order-preserving subsequences |
| text.dfy | `Text` | `toLowerCase` (ASCII) and `String.prototype.includes`; the search match |
| pagination.dfy | `Pagination` | `slice(page*rpp, page*rpp+rpp)`; the `page`/`rowsPerPage` state as class `Pager` |
| records.dfy | `Records` | users, menus, reviews, requests, id truthiness |
| user_form.dfy | `UserForm` | role ↔ `isAdmin`/`isManager`, the image part of a user form |
| manage_customers.dfy | `ManageCustomers` | src/pages/ManageCustomers.js |
| manage_user.dfy | `ManageUser` | src/pages/ManageUser.js |
| manage_review.dfy | `ManageReview` | src/pages/ManageReview.js |
| manage_stocks.dfy | `ManageStocks` | src/pages/ManageStocks.js |
| manage_transactions.dfy | `ManageTransactions` | src/pages/ManageTransactions.js |
| logs_page.dfy | `LogsPage` | src/pages/LogsPage.js |
| side_nav.dfy | `SideNav` | src/components/SideNav.js |

Each page is a class whose fields are the component's `useState` hooks; each
handler is a method. The filters, draft edits, request construction, item
edits, totals and the sort are pure functions over `seq`. The methods are
specified by these functions, and the lemmas prove what the page promises
about them.

Every HTTP call is a parameter of the handler that makes it:

- `response: Option<…>` for a fetch;
- `refetched: Option<seq<…>>` for a submit or delete followed by a re-fetch, where None means one of the calls failed;
- `succeeded: bool` for the transaction delete.

The request a handler sends is its return value, as a `Request` value (method, URL, body).

In these places the code behaves in ways a reader might not expect; the model follows the code:

- **Submit always closes the dialog.** On the customer, user, review and stock pages, `handleSubmit` closes the dialog and resets the draft whether or not the call succeeded. It does not keep the draft after a failure. The one exception, a cleared date on the customer page, is under "## Left out".
- **Transaction save and delete close only on success.** They update the list locally, with `map` and `filter`, instead of re-fetching it.
- **Searching does not reset the page.** A new search leaves the page index where it was; only a change of rows per page sends the table back to page 0.
- **A new line item has quantity 1, not 0.** The total has no floor at zero.
- **There is no dashboard aggregation.** `Dashboard.js` renders hard-coded rows.
- **The review "Add Review" button passes its click event to `handleClickOpen`.** The draft's id and four fields are therefore all `undefined` (None), not blank. The request still goes to `/create`, and fields left untouched are absent from the body.
- **The Customers page resets to a different draft than it starts with.** It starts with role "customer", but opening a new draft or closing resets the role to "".

## Model

| member | source | states |
|---|---|---|
| Collections.Filter | src/pages/ManageUser.js:213-217 | the result holds exactly the elements satisfying the predicate, is no longer than the input, and is empty when none satisfies it |
| Collections.FilterIsSubsequence | src/pages/ManageUser.js:213-217 | a filtered list is an order-preserving subsequence of its input |
| Text.ToLower | src/pages/ManageUser.js:215-216 | same length, all lower case; each upper-case letter becomes its lower-case letter (code point + 32), every other character is kept |
| Text.ToLowerIdempotent | src/pages/ManageUser.js:215-216 | lower-casing twice is lower-casing once |
| Text.Includes | src/pages/ManageUser.js:215-216 | true exactly when the needle occurs at some position of the haystack |
| Text.MatchesQuery | src/pages/ManageUser.js:215-216 | true exactly when the lowered query occurs at some position of the lowered field; a query longer than the field never matches |
| Text.EmptyQueryMatches | src/pages/ManageUser.js:215-216 | the empty query matches every field |
| Text.MatchesItself | src/pages/ManageUser.js:215-216 | every field matches itself as a query |
| Text.MatchesIgnoresCase | src/pages/ManageUser.js:215-216 | the match does not depend on the case of the field or the query |
| Pagination.Window | src/pages/ManageTransactions.js:230-231 | at most `rpp` rows; a full page when the rows reach that far; a short last page holding the rest; empty past the end; row k is row `page*rpp+k` of the table |
| Pagination.Pages | src/pages/ManageTransactions.js:230-231 | the first `n` pages laid end to end hold `min(n*rpp, rows)` rows |
| Pagination.PagesArePrefix | src/pages/ManageTransactions.js:230-231 | the first n pages laid end to end are the first `n*rpp` rows |
| Pagination.PagesCoverRows | src/pages/ManageTransactions.js:230-231 | once the pages cover the table, paging shows every row exactly once, in order |
| Pagination.Pager.constructor | src/pages/ManageTransactions.js:33-34 | the table starts on page 0 with five rows per page |
| Pagination.Pager.ChangePage | src/pages/ManageTransactions.js:119-121 | the page becomes the requested one; the page size is kept |
| Pagination.Pager.ChangeRowsPerPage | src/pages/ManageTransactions.js:123-126 | the new page size is set and the page goes back to 0 |
| Pagination.Pager.Visible | src/pages/ManageTransactions.js:230-231 | exactly the window of the current page and page size; at most one page, and a full page when the rows reach that far |
| Records.IdIsSet | src/pages/ManageUser.js:173 | `if (formData.id)`: only a present, non-empty id selects the update path |
| Records.IdText | src/pages/ManageStocks.js:95-96 | a template literal prints a present id as itself and a missing one as "null" |
| UserForm.RoleOf | src/pages/ManageCustomers.js:110 | "admin" exactly when admin, "manager" exactly when manager and not admin, "customer" exactly when neither |
| UserForm.RoleLabel | src/pages/ManageCustomers.js:366-370 | the row label follows the same priority: admin over manager, then customer |
| UserForm.FlagsFor | src/pages/ManageCustomers.js:164-176 | `isAdmin` exactly for "admin", `isManager` exactly for "manager"; never both |
| UserForm.RoleRoundTrip | src/pages/ManageCustomers.js:110 | choosing one of the three roles and reading it back from the flags gives that role |
| UserForm.FlagsRoundTrip | src/pages/ManageCustomers.js:110 | reading the role from flags that are not both set and choosing it again restores the flags |
| UserForm.ImageChoice | src/pages/ManageCustomers.js:209-216 | the new file if chosen, else the stored image's path, else no image part at all |
| ManageCustomers.InitialForm | src/pages/ManageCustomers.js:54-66 | the draft the page starts with is the blank draft except that its role is "customer" |
| ManageCustomers.BlankForm | src/pages/ManageCustomers.js:137-152 | the reset draft: no id, empty fields, role "", no flags, no image, today's date |
| ManageCustomers.EditForm | src/pages/ManageCustomers.js:104-135 | the draft for a user carries its id, fields and flags, the role its flags give, its stored image and no new file |
| ManageCustomers.ApplyInput | src/pages/ManageCustomers.js:154-185 | the role radio sets the role and both flags by equality; any other input changes only its own field; the id never changes |
| ManageCustomers.SubmitRequest | src/pages/ManageCustomers.js:187-231 | PUT to `/<id>` exactly when the id is set, POST otherwise; the body carries the draft's fields, the acting user's id and the chosen image |
| ManageCustomers.EditThenSubmitUpdates | src/pages/ManageCustomers.js:104-135 | opening a user and submitting unchanged updates that user and keeps its flags |
| ManageCustomers.FilteredCustomers | src/pages/ManageCustomers.js:267-274 | under the "customer" filter a user is listed exactly when neither admin nor manager and its name or email matches; under any other filter nobody is listed |
| ManageCustomers.CustomersKeepOrder | src/pages/ManageCustomers.js:267-274 | the customer list is an order-preserving subsequence of the data |
| ManageCustomers.EmptyQueryListsAllCustomers | src/pages/ManageCustomers.js:267-274 | an empty search lists every customer, in order |
| ManageCustomers.SearchNarrowsCustomers | src/pages/ManageCustomers.js:267-274 | the list is the search filter applied to the customers |
| ManageCustomers.CustomersPage.constructor | src/pages/ManageCustomers.js:50-71 | no data yet, dialog closed, the initial draft, empty search, role filter "customer", page 0 of 5 rows |
| ManageCustomers.CustomersPage.Filtered | src/pages/ManageCustomers.js:267-274 | nothing before the first fetch, the customer filter afterwards |
| ManageCustomers.CustomersPage.Count | src/pages/ManageCustomers.js:399 | the page count is the filtered length, 0 before the first fetch |
| ManageCustomers.CustomersPage.VisibleRows | src/pages/ManageCustomers.js:342-346 | exactly the current page window of `FilteredCustomers` over the loaded data (nothing before the data arrives); at most one page, only matching customers |
| ManageCustomers.CustomersPage.Loaded | src/pages/ManageCustomers.js:77-93 | a successful fetch replaces the data, a failed one keeps it |
| ManageCustomers.CustomersPage.ClickOpen | src/pages/ManageCustomers.js:104-135 | opens the dialog with the user's draft, or the blank draft when no user is given |
| ManageCustomers.CustomersPage.Close | src/pages/ManageCustomers.js:137-152 | closes the dialog and resets the draft |
| ManageCustomers.CustomersPage.Change | src/pages/ManageCustomers.js:154-185 | the draft becomes `ApplyInput` of the old draft; nothing else changes |
| ManageCustomers.CustomersPage.Submit | src/pages/ManageCustomers.js:187-231 | sends `SubmitRequest` of the draft, re-fetches on success, and closes with a blank draft either way |
| ManageCustomers.CustomersPage.Delete | src/pages/ManageCustomers.js:233-248 | sends a DELETE for the id carrying the acting user's id, and re-fetches on success |
| ManageCustomers.CustomersPage.Search | src/pages/ManageCustomers.js:250-252 | only the query changes |
| ManageCustomers.CustomersPage.ChangeRoleFilter | src/pages/ManageCustomers.js:254-256 | only the role filter changes |
| ManageUser.BlankForm | src/pages/ManageUser.js:108-119 | the `handleClose` draft (also the initial one): no id, so a new account; empty fields, role "", no image, neither flag |
| ManageUser.EditForm | src/pages/ManageUser.js:79-106 | the draft for an account carries its id, fields and flags, the role its flags give, and its stored image |
| ManageUser.ApplyInput | src/pages/ManageUser.js:123-147 | the role radio sets the role and both flags by equality; any other input changes only its own field |
| ManageUser.RoleInputExclusive | src/pages/ManageUser.js:133-145 | after a role choice the account is never admin and manager at once, and its label is the chosen role |
| ManageUser.SubmitRequest | src/pages/ManageUser.js:149-187 | PUT to `/<id>` exactly when the id is set, POST otherwise, with the draft's fields and image part |
| ManageUser.BlankFormCreates | src/pages/ManageUser.js:173-178 | a blank draft, whatever is typed into it, is POSTed as a new account |
| Collections.FoldLeftPreserves | src/pages/ManageUser.js:123-147 | a property every single field edit keeps holds after any sequence of edits (used with "the draft id is unset" on the account and review dialogs) |
| ManageUser.FilteredUsers | src/pages/ManageUser.js:213-217 | an account is listed exactly when its name or email matches, whatever its role |
| ManageUser.UsersKeepOrder | src/pages/ManageUser.js:213-217 | the list is an order-preserving subsequence of the data |
| ManageUser.EmptyQueryListsAllUsers | src/pages/ManageUser.js:213-217 | an empty search lists every account, unchanged |
| ManageUser.UsersPage.constructor | src/pages/ManageUser.js:41-57 | no data yet, dialog closed, blank draft, empty search, page 0 of 5 rows |
| ManageUser.UsersPage.Filtered | src/pages/ManageUser.js:213-217 | nothing before the first fetch, the search filter afterwards |
| ManageUser.UsersPage.Count | src/pages/ManageUser.js:337 | the page count is the filtered length |
| ManageUser.UsersPage.VisibleRows | src/pages/ManageUser.js:284-288 | exactly the current page window of `FilteredUsers` over the loaded data (nothing before the data arrives); at most one page, only matching accounts |
| ManageUser.UsersPage.Loaded | src/pages/ManageUser.js:61-77 | a successful fetch replaces the data, a failed one keeps it |
| ManageUser.UsersPage.ClickOpen | src/pages/ManageUser.js:79-106 | opens with the account's draft, or the blank draft |
| ManageUser.UsersPage.Close | src/pages/ManageUser.js:108-121 | closes and resets the draft |
| ManageUser.UsersPage.Change | src/pages/ManageUser.js:123-147 | the draft becomes `ApplyInput` of the old draft |
| ManageUser.UsersPage.Submit | src/pages/ManageUser.js:149-187 | sends `SubmitRequest` of the draft, re-fetches on success, and closes either way |
| ManageUser.UsersPage.Delete | src/pages/ManageUser.js:189-198 | sends a DELETE for the id and re-fetches on success |
| ManageUser.UsersPage.Search | src/pages/ManageUser.js:200-202 | only the query changes |
| ManageReview.BlankForm | src/pages/ManageReview.js:128-137 | the `handleClose` draft (also the initial one): no id, empty account and menu, rate 0, empty description |
| ManageReview.EditForm | src/pages/ManageReview.js:117-126 | the draft for a review carries its id, account, menu, rate and description |
| ManageReview.AddButtonForm | src/pages/ManageReview.js:117-126 | the draft `handleClickOpen` builds from the click event of "Add Review" (line 216): no id and all four fields undefined, unlike the blank draft |
| ManageReview.ApplyInput | src/pages/ManageReview.js:139-145 | each input sets exactly its own field; the id never changes |
| ManageReview.SubmitRequest | src/pages/ManageReview.js:147-160 | PUT to `/update/<id>` exactly when the id is set, POST to `/create` otherwise; the body is the four fields and never the id |
| ManageReview.AddButtonCreates | src/pages/ManageReview.js:216 | a dialog opened from "Add Review" is POSTed to `/create`, whatever is edited in it |
| ManageReview.EditThenSubmitUpdates | src/pages/ManageReview.js:147-160 | opening a review and submitting unchanged updates that review with its own four fields |
| ManageReview.FilteredReviews | src/pages/ManageReview.js:113-115 | a review is listed exactly when its description matches |
| ManageReview.ReviewsKeepOrder | src/pages/ManageReview.js:113-115 | the list is an order-preserving subsequence of the data |
| ManageReview.EmptyQueryListsAllReviews | src/pages/ManageReview.js:113-115 | an empty search lists every review, unchanged |
| ManageReview.ReviewsPage.constructor | src/pages/ManageReview.js:43-57 | no data yet, dialog closed, the blank draft with id null and rate 0, empty search, page 0 of 5 rows |
| ManageReview.ReviewsPage.Filtered | src/pages/ManageReview.js:113-115 | nothing before the first fetch, the search filter afterwards |
| ManageReview.ReviewsPage.Count | src/pages/ManageReview.js:286 | the page count is the filtered length |
| ManageReview.ReviewsPage.VisibleRows | src/pages/ManageReview.js:249-253 | exactly the current page window of `FilteredReviews` over the loaded data (nothing before the data arrives); at most one page, only matching reviews |
| ManageReview.ReviewsPage.Loaded | src/pages/ManageReview.js:62-77 | a successful fetch replaces the data, a failed one keeps it |
| ManageReview.ReviewsPage.ClickOpen | src/pages/ManageReview.js:117-126 | opens with the review's draft; from the Add button, with every field undefined |
| ManageReview.ReviewsPage.Close | src/pages/ManageReview.js:128-137 | closes and resets the draft to the blank one |
| ManageReview.ReviewsPage.Change | src/pages/ManageReview.js:139-145 | the draft becomes `ApplyInput` of the old draft |
| ManageReview.ReviewsPage.Submit | src/pages/ManageReview.js:147-169 | sends `SubmitRequest` of the draft, re-fetches on success, and closes either way |
| ManageReview.ReviewsPage.Delete | src/pages/ManageReview.js:103-111 | sends a DELETE for the id and re-fetches on success |
| ManageReview.ReviewsPage.Search | src/pages/ManageReview.js:171-173 | only the query changes |
| ManageStocks.BlankForm | src/pages/ManageStocks.js:75-80 | the `handleClose` draft (also the initial one): no id and stock 0 |
| ManageStocks.EditForm | src/pages/ManageStocks.js:67-73 | opening copies only the menu's id and stock |
| ManageStocks.SubmitRequest | src/pages/ManageStocks.js:91-105 | always a PUT to the draft's id carrying exactly the stock and the acting user's id |
| ManageStocks.EditStockUpdatesMenu | src/pages/ManageStocks.js:67-105 | opening a menu, typing a stock and submitting updates that menu with that stock |
| ManageStocks.FilteredMenus | src/pages/ManageStocks.js:120-124 | a menu is listed exactly when its name or description matches |
| ManageStocks.MenusKeepOrder | src/pages/ManageStocks.js:120-124 | the list is an order-preserving subsequence of the data |
| ManageStocks.EmptyQueryListsAllMenus | src/pages/ManageStocks.js:120-124 | an empty search lists every menu, unchanged |
| ManageStocks.StocksPage.constructor | src/pages/ManageStocks.js:36-45 | no data yet, dialog closed, draft with id null and stock 0, empty search, page 0 of 5 rows |
| ManageStocks.StocksPage.Filtered | src/pages/ManageStocks.js:120-124 | nothing before the first fetch, the search filter afterwards |
| ManageStocks.StocksPage.Count | src/pages/ManageStocks.js:222 | the page count is the filtered length |
| ManageStocks.StocksPage.VisibleRows | src/pages/ManageStocks.js:183-187 | exactly the current page window of `FilteredMenus` over the loaded data (nothing before the data arrives); at most one page, only matching menus |
| ManageStocks.StocksPage.Loaded | src/pages/ManageStocks.js:49-65 | a successful fetch replaces the data, a failed one keeps it |
| ManageStocks.StocksPage.ClickOpen | src/pages/ManageStocks.js:67-73 | opens with the menu's id and stock |
| ManageStocks.StocksPage.Close | src/pages/ManageStocks.js:75-81 | closes and resets the draft to id null, stock 0 |
| ManageStocks.StocksPage.ChangeStock | src/pages/ManageStocks.js:83-89 | only the stock in the draft changes |
| ManageStocks.StocksPage.Submit | src/pages/ManageStocks.js:91-105 | sends `SubmitRequest` of the draft, re-fetches on success, and closes either way |
| ManageStocks.StocksPage.Search | src/pages/ManageStocks.js:107-109 | only the query changes |
| ManageTransactions.StatusOptionsAreFourDistinct | src/pages/ManageTransactions.js:293-298 | the status select offers four distinct values |
| ManageTransactions.AddItem | src/pages/ManageTransactions.js:128-137 | one blank item (no menu, quantity 1, price 0) at the end; every earlier item unchanged |
| ManageTransactions.RemoveItem | src/pages/ManageTransactions.js:139-148 | every item but position i, in order; an out-of-range i removes nothing |
| ManageTransactions.FindMenu | src/pages/ManageTransactions.js:152 | the first catalog entry with the id; none exactly when no entry has it |
| ManageTransactions.SetItemMenu | src/pages/ManageTransactions.js:150-169 | item i takes the menu's id, name and price and keeps its quantity; every other item unchanged |
| ManageTransactions.SetItemQuantity | src/pages/ManageTransactions.js:171-180 | only item i's quantity changes; the length and every other item are kept |
| ManageTransactions.AddThenRemoveRestores | src/pages/ManageTransactions.js:128-148 | adding an item and removing the last one restores the list |
| ManageTransactions.LineTotal | src/pages/ManageTransactions.js:184-187 | a line costs nothing when its price or quantity is 0, its price at quantity 1, and never less than 0 for non-negative price and quantity |
| ManageTransactions.Subtotal | src/pages/ManageTransactions.js:184-187 | the `reduce` from 0: zero for no items, the one line for a single item |
| ManageTransactions.SubtotalSign | src/pages/ManageTransactions.js:184-187 | the subtotal is non-negative when every line is, and zero when every line is |
| ManageTransactions.Discount | src/pages/ManageTransactions.js:188 | `promo_price || 0`: the promotion price, or 0 without a promotion |
| ManageTransactions.Total | src/pages/ManageTransactions.js:182-192 | the total plus the discount equals the subtotal; without a promotion it is the subtotal |
| ManageTransactions.SubtotalAppend | src/pages/ManageTransactions.js:184-187 | the sum of line totals splits over concatenation |
| ManageTransactions.AddItemKeepsTotal | src/pages/ManageTransactions.js:128-137 | a blank item leaves the total unchanged |
| ManageTransactions.RemoveItemTotal | src/pages/ManageTransactions.js:139-148 | removing item i takes exactly its price times quantity off the total |
| ManageTransactions.QuantityChangeTotal | src/pages/ManageTransactions.js:171-180 | a quantity change re-prices only its own line |
| ManageTransactions.MenuChangeTotal | src/pages/ManageTransactions.js:150-169 | a menu change re-prices only its own line, at the menu's price |
| ManageTransactions.TotalExample | src/pages/ManageTransactions.js:182-192 | 2 × 1000 plus 1 × 500 less a 300 promotion totals 2200 |
| ManageTransactions.TotalMayBeNegative | src/pages/ManageTransactions.js:188-191 | nothing floors the total at zero |
| ManageTransactions.Recompute | src/pages/ManageTransactions.js:65-67 | only the total changes, and it then equals the sum of line totals less the promotion |
| ManageTransactions.RecomputeIdempotent | src/pages/ManageTransactions.js:182-192 | recomputing twice gives the same transaction |
| ManageTransactions.SetStatus | src/pages/ManageTransactions.js:286-291 | only the status changes; a settled total stays settled |
| ManageTransactions.ReplaceById | src/pages/ManageTransactions.js:76-80 | same length and ids; elements with the response's id become the response, the others are kept |
| ManageTransactions.ReplaceByIdIdempotent | src/pages/ManageTransactions.js:76-80 | saving the same response twice is saving it once |
| ManageTransactions.RemoveById | src/pages/ManageTransactions.js:90-92 | exactly the transactions with another id remain |
| ManageTransactions.RemoveByIdKeepsOrder | src/pages/ManageTransactions.js:90-92 | the remaining transactions keep their order |
| ManageTransactions.TransactionsPage.constructor | src/pages/ManageTransactions.js:27-34 | no transactions or menus, both dialogs closed, nothing selected, page 0 of 5 rows |
| ManageTransactions.TransactionsPage.Count | src/pages/ManageTransactions.js:268 | the page count is the number of transactions |
| ManageTransactions.TransactionsPage.VisibleRows | src/pages/ManageTransactions.js:230-231 | exactly the current page window of the transactions; at most one page, row k being transaction `page*rowsPerPage+k` |
| ManageTransactions.TransactionsPage.LoadedTransactions | src/pages/ManageTransactions.js:40-50 | a successful fetch replaces the transactions |
| ManageTransactions.TransactionsPage.LoadedMenus | src/pages/ManageTransactions.js:52-59 | a successful fetch replaces the menu catalog |
| ManageTransactions.TransactionsPage.Edit | src/pages/ManageTransactions.js:99-102 | selects the transaction, with its total recomputed, and opens the edit dialog |
| ManageTransactions.TransactionsPage.Delete | src/pages/ManageTransactions.js:104-107 | selects the transaction and opens the delete confirmation |
| ManageTransactions.TransactionsPage.EditClose | src/pages/ManageTransactions.js:109-112 | closes the edit dialog and clears the selection |
| ManageTransactions.TransactionsPage.DeleteClose | src/pages/ManageTransactions.js:114-117 | closes the confirmation and clears the selection |
| ManageTransactions.TransactionsPage.EditSave | src/pages/ManageTransactions.js:69-85 | PUTs the selection; on success replaces by id and closes; on failure changes nothing; sends nothing and leaves the dialog as it was when nothing is selected |
| ManageTransactions.TransactionsPage.DeleteConfirm | src/pages/ManageTransactions.js:87-97 | DELETEs the selection; on success removes by id and closes; on failure changes nothing; sends nothing and leaves the dialog as it was when nothing is selected |
| ManageTransactions.TransactionsPage.SetItems | src/pages/ManageTransactions.js:65-67 | new items for the selection, with the total recomputed from them |
| ManageTransactions.TransactionsPage.AddMenuItem | src/pages/ManageTransactions.js:128-137 | the selection gets `AddItem` of its items, total recomputed |
| ManageTransactions.TransactionsPage.RemoveMenuItem | src/pages/ManageTransactions.js:139-148 | the selection gets `RemoveItem` of its items, total recomputed |
| ManageTransactions.TransactionsPage.MenuChange | src/pages/ManageTransactions.js:150-169 | the selection gets `SetItemMenu` with the catalog entry; an unknown menu id changes nothing |
| ManageTransactions.TransactionsPage.QuantityChange | src/pages/ManageTransactions.js:171-180 | the selection gets `SetItemQuantity`, total recomputed |
| ManageTransactions.TransactionsPage.ChangeStatus | src/pages/ManageTransactions.js:286-291 | the selection's status changes; items and total stay |
| LogsPage.RequestSort | src/pages/LogsPage.js:52-56 | descending exactly when the same column was ascending; the column becomes the requested one |
| LogsPage.RequestSortFlips | src/pages/LogsPage.js:52-56 | a request on the current column flips the direction |
| LogsPage.RequestSortTwiceRestores | src/pages/LogsPage.js:52-56 | two requests on the current column restore the sort state |
| LogsPage.RequestSortNewColumn | src/pages/LogsPage.js:52-56 | a new column starts ascending, and the next request on it turns descending |
| LogsPage.Compare | src/pages/LogsPage.js:58-65 | the comparator is the difference of the sort keys, and always 0 for a column other than the timestamp |
| LogsPage.Insert | src/pages/LogsPage.js:58-65 | inserting adds exactly the one log |
| LogsPage.InsertSorted | src/pages/LogsPage.js:58-65 | inserting into sorted logs keeps them sorted |
| LogsPage.SortedLogs | src/pages/LogsPage.js:58-65 | the sorted logs are a permutation of the logs, in comparator order |
| LogsPage.Tie | src/pages/LogsPage.js:58-65 | the logs whose comparator key is `k`, exactly those, in input order |
| LogsPage.InsertTie | src/pages/LogsPage.js:58-65 | inserting into sorted logs puts the new log after every log it ties with |
| LogsPage.SortedLogsStable | src/pages/LogsPage.js:58-65 | the sort is stable: for every key, the logs with that key appear in the same order before and after sorting |
| LogsPage.AscendingByTimestamp | src/pages/LogsPage.js:60-61 | ascending by timestamp, timestamps never decrease down the table |
| LogsPage.DescendingByTimestamp | src/pages/LogsPage.js:60-62 | descending by timestamp, timestamps never increase down the table |
| LogsPage.InsertAtEnd | src/pages/LogsPage.js:58-65 | a log keyed at or above all others is placed last |
| LogsPage.SortingSortedIsIdentity | src/pages/LogsPage.js:58-65 | re-sorting sorted logs changes nothing, so sorting the state array on every render is stable |
| LogsPage.OtherColumnKeepsOrder | src/pages/LogsPage.js:64 | under any column but the timestamp, the logs keep their order |
| LogsPage.LogsView.constructor | src/pages/LogsPage.js:19-24 | no logs, sorted by timestamp descending, page 0 of 5 rows |
| LogsPage.LogsView.Count | src/pages/LogsPage.js:128 | the page count is the number of logs |
| LogsPage.LogsView.Loaded | src/pages/LogsPage.js:27-41 | a successful fetch replaces the logs |
| LogsPage.LogsView.RequestSortOn | src/pages/LogsPage.js:52-56 | the sort state becomes `RequestSort` of the old one |
| LogsPage.LogsView.Render | src/pages/LogsPage.js:58-65 | the state array is replaced by its sorted permutation, and the rows shown are its current page |
| SideNav.AdminNavItems | src/components/SideNav.js:53-62 | four links with distinct paths: customers, menu, stocks and transactions; neither the dashboard nor the logs |
| SideNav.ManagerNavItems | src/components/SideNav.js:64-77 | eight links with distinct paths: dashboard, users, menu, stocks, promotions, reviews, transactions and logs; no customer page |
| SideNav.NavItemsFor | src/components/SideNav.js:79 | admins get four links including customers and without dashboard or logs; everyone else gets eight, including dashboard, users, promotions, reviews and logs and not customers; both get menu, stocks and transactions; paths are distinct |
| SideNav.AdminLinksAreSharedButCustomers | src/components/SideNav.js:53-77 | every admin link but "Manage Customer" is in the manager list too |
| SideNav.ItemStyle | src/components/SideNav.js:33-40 | the highlight style exactly when the link's path is the current location |
| SideNav.ItemIconStyle | src/components/SideNav.js:42-46 | the primary colour exactly when the link's path is the current location |
| SideNav.Highlighted | src/components/SideNav.js:33-40 | the highlighted links are exactly those whose path is the current location |
| SideNav.AtMostOneHighlighted | src/components/SideNav.js:33-46 | with distinct paths at most one link is highlighted, and exactly one when the location is among the paths |
| SideNav.DrawerHighlightsAtMostOne | src/components/SideNav.js:53-79 | for either role, the drawer highlights at most one link |
| SideNav.RoleBanner | src/components/SideNav.js:117 | "Admin" exactly for admins, otherwise "Manager" |

## Left out

- HTTP calls (`axios`) are network I/O. Each call is an outcome parameter of its handler: a new collection, or failure.
- The `loading`/`loadingDelete` flags, the two-second `setTimeout` delays, snackbars and every JSX rendering detail are presentation.
- Multipart `FormData` bodies, file inputs, `URL.createObjectURL` previews and the `imagePreview` state are browser APIs. The body is a datatype with the fields it carries, and a chosen file is an opaque `Upload`.
- `dayjs`, `new Date`, `toLocaleString` and `toFixed` are not modelled. Dates and timestamps are integers, milliseconds for the logs. The current time is the `now` parameter. On the customer page `formData.date.format()` runs before the `try` (src/pages/ManageCustomers.js:192); a cleared date picker leaves the date null, so the call throws and the dialog stays open. The integer date cannot be null, so `ManageCustomers.CustomersPage.Submit` always closes the dialog. A timestamp that does not parse (a NaN comparison) is outside the model.
- Prices, quantities, stock and rates are integers. The quantity text field's string value, coerced by JavaScript's `*`, is an `int` from the start.
- ManageTransactions.TransactionsPage: the selected transaction is modelled in the state React settles in once the effect on `t_items` has run. The stale `selectedTransaction` that `updateTotalPrice` reads inside a handler, and React's batching, are not modelled.
- Text.ToLower: folds ASCII letters only. JavaScript's `toLowerCase` folds all of Unicode.
- The review page's menu and account fetches only fill the dialog's select options and are not modelled.
- A transaction's populated references are kept as the fields the page reads: `Transaction.accountName` is `account_id.fullname` (src/pages/ManageTransactions.js:234), and `Transaction.promo` holds `promo_id`'s `promoCode` (src/pages/ManageTransactions.js:235) and `promoPrice`, which enters `Total`. The rest of the populated account and promotion documents is not modelled.
- An item's populated `menu_id` (the page reads `item.menu_id._id`, src/pages/ManageTransactions.js:322) is modelled by that id alone, `Item.menuId`; the item's name and price are its own `menu_name` and `price` fields.
- A review's `accountId` and `menuId` arrive populated: the table reads `accountId?.fullname` and `menuId?.menu_name` (src/pages/ManageReview.js:257-258). `handleClickOpen` copies these documents into the draft (src/pages/ManageReview.js:121-122) and `handleSubmit` sends them in the PUT body (src/pages/ManageReview.js:149-150). The model's `Review`, draft and body carry plain id strings instead.
- `handleChange` writing an input name outside the known fields (`[name]: value`) is not modelled. The inputs are a closed datatype of the dialog's fields.
- Routing, authentication, logout and the current user come from code that is not part of this model (src/index.js, src/App.js, src/routes/root.js, the auth provider). The acting user's id and role are parameters.
- The Dashboard, Manage Promo and Manage Menu pages render fixed rows and contain no logic.
- SideNav: the avatar, icons and theme are presentation. The theme's primary colour is a parameter.
- LogsPage.SortedLogs: `Array.prototype.sort` is modelled as a stable insertion sort driven by the page's own comparator. The model proves that the result is a permutation of the logs, in comparator order, with logs of equal key in their input order (`SortedLogsStable`): what any stable sort with that comparator yields. The engine's own algorithm is not modelled.
