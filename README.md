# Pharmacy storefront core, modelled in Dafny

This project models the client-side core of a pharmacy ordering web app, a React single-page application. Customers sign in, browse a paged price list, keep a per-user cart and submit it as an order. They can also follow an order's delivery stages and download a report for it.

The model covers these parts:

- **Cart store** (`Cart`). The list of lines, keyed by the fallback `id || Код || Артикул`. Its updaters for add, set, increase, decrease, remove and clear, plus the badge count. Its load-once / save-after-load protocol against browser storage under `cart_<userId>`.
- **Session holder** (`Auth`). Token and user state, hydration from storage, the effect that mirrors the state back into storage, `login` and `logout`.
- **Application shell** (`App`). The cart's user id, the loading gate and the root route.
- **Pages**:
  - basket total, order payload and submission (`OrderBasket`);
  - order history filter, totals and pager (`HistoryOrder`);
  - catalogue quantity pickers and the merge of product pages (`PriceList`);
  - the two order-detail pages (`DetailRealisations`, `DetailedStory`);
  - the set-password form (`SetPassword`).
- **Components**:
  - the order-status projection (`OrderStatus`);
  - the two stock-conflict dialogs (`FixQuantityModal`, `OrderErrorModal`).
- **Shared modules**:
  - `Js` holds the JavaScript pieces the code relies on: values that are a string, a number or absent, truthiness, `||` and `String(x)`;
  - `OrderDates` holds the date normaliser and the six stage dates; both detail pages define them identically.

Pure list and record logic is written as functions with lemmas. State that the code changes step by step is written as classes whose methods are the effects and handlers. This covers the cart provider, the auth provider and the page states. Every method's `ensures` gives its whole new state in terms of the specification functions.

Parsers and formatters are parameters of the members that use them: `JSON.parse`, `JSON.stringify`, `Number`, `parseInt`, `toLowerCase` and the current time. Network replies are inputs to the handlers.

The model follows the code as written in two places where the intended behaviour reads differently:

- `decreaseQuantity` removes a line whose quantity reaches 0. It does not floor the quantity at 1.
- The effects of `CartProvider` load at most once per provider, whatever user is signed in later (see Findings).

## Model

| member | source | states |
|---|---|---|
| Cart.QtyOr1 | src/context/CartContext.jsx:58 | `quantity \|\| 1` is never 0, keeps any non-zero quantity, and is at least 1 for a non-negative one |
| Cart.Bump | src/context/CartContext.jsx:71-75 | the map keeps the length; each line with the key gains `(quantity \|\| 1) + delta`, every other line is unchanged at its position |
| Cart.SetMatching | src/context/CartContext.jsx:45-53 | the map keeps the length; each line with the key gets exactly the new quantity, every other line is unchanged |
| Cart.AddKeylessIsNoop | src/context/CartContext.jsx:57-63 | adding a product with none of `id`, `Код`, `Артикул` leaves the cart unchanged |
| Cart.AddMergesExisting | src/context/CartContext.jsx:65-76 | a product whose key is present adds no line: each line with the key gains `product.quantity \|\| 1`, and the lines with other keys are the same, in the same order |
| Cart.AddAppendsNew | src/context/CartContext.jsx:78 | a product with a new key is appended at the end, the old lines are a prefix, the new line's `id` is the resolved key and its quantity is `quantity \|\| 1` |
| Cart.AddTwiceMerges | src/context/CartContext.jsx:56-80 | adding the same key twice, with q1 and q2, gives one line with quantity `(q1 \|\| 1) + (q2 \|\| 1)` |
| Cart.IncreaseOnlyTarget | src/context/CartContext.jsx:86-94 | every line with the key gains 1; all keys, the length and the other lines with their order are unchanged |
| Cart.DecreaseAt | src/context/CartContext.jsx:96-109 | with the key held by one line x, x loses one unit or is dropped when `(quantity \|\| 1) - 1` is not positive; the lines before and after it are unchanged |
| Cart.DecreaseFromOneRemoves | src/context/CartContext.jsx:96-109 | on distinct keys, a line at quantity 1 disappears, leaving exactly the other lines in order, and lines of other keys are never touched |
| Cart.UpdateSetsExactly | src/context/CartContext.jsx:41-54 | a quantity below 1 changes nothing; otherwise every line with the key gets exactly that quantity and nothing else changes |
| Cart.RemoveDeletesKey | src/context/CartContext.jsx:111-117 | no line with the key remains, the result is an order-preserving subsequence, and every line of another key survives |
| Cart.CountAtLeastLines | src/context/CartContext.jsx:119 | with no negative quantity, the badge count is at least the number of lines |
| Cart.CountAfterAdd | src/context/CartContext.jsx:119 | on a well-formed cart, adding a keyed product raises the count by exactly `quantity \|\| 1` |
| Cart.ApplyPreservesWellFormed | src/context/CartContext.jsx:41-117 | every operation keeps all lines keyed, keys pairwise distinct and quantities positive |
| Cart.KeyedApply | src/context/CartContext.jsx:41-117 | every operation keeps every line keyed, whatever the quantities loaded from storage |
| Cart.LoadKeepsKeyed | src/context/CartContext.jsx:15-19 | loading keeps exactly the stored entries that have a key, in their stored order |
| Cart.LoadMalformedIsEmpty | src/context/CartContext.jsx:15-25 | a missing entry or one that does not parse to an array loads an empty cart |
| Cart.ReloadAfterSave | src/context/CartContext.jsx:34 | the items saved, all keyed, load back unchanged |
| Cart.CartKeyInjective | src/context/CartContext.jsx:13 | two different user ids never share a storage key |
| Cart.CartProvider.constructor | src/context/CartContext.jsx:6-7 | the cart starts empty and not loaded, over the given storage |
| Cart.CartProvider.LoadEffect | src/context/CartContext.jsx:10-26 | loads from `cart_<userId>` only with a user id and only the first time; storage is not touched |
| Cart.CartProvider.SaveEffect | src/context/CartContext.jsx:29-38 | writes the items under the current user's key only with a user id and after the load; a failing write changes nothing; nothing is written before the load |
| Cart.CartProvider.AddToCart | src/context/CartContext.jsx:56-80 | the items become the add transform of the old items; storage and the load flag are unchanged |
| Cart.CartProvider.UpdateQuantity | src/context/CartContext.jsx:41-54 | the items become the update transform of the old items; nothing else changes |
| Cart.CartProvider.IncreaseQuantity | src/context/CartContext.jsx:86-94 | the items become the increment transform; nothing else changes |
| Cart.CartProvider.DecreaseQuantity | src/context/CartContext.jsx:96-109 | the items become the decrement reduce; every line stays keyed |
| Cart.CartProvider.RemoveFromCart | src/context/CartContext.jsx:111-117 | the items become the filter without the key; every line stays keyed |
| Cart.CartProvider.ClearCart | src/context/CartContext.jsx:82-84 | the items become empty; storage and the load flag are unchanged |
| Cart.CartProvider.CartCount | src/context/CartContext.jsx:119 | the count is the reduce of `quantity \|\| 1` over the items, and with positive quantities it is at least the number of lines |
| Cart.UserSwitchLeaksCart | src/context/CartContext.jsx:10-38 | as written, when the signed-in user changes from A, who added a line, straight to B in the same provider (a sign-in on the set-password page), B's stored cart is overwritten with A's line |
| Cart.ScopedCartProvider.constructor | src/context/CartContext.jsx:6-7 | the corrected provider starts empty and loaded for nobody |
| Cart.ScopedCartProvider.LoadEffect | src/context/CartContext.jsx:10-26 | the corrected load reloads whenever the user id differs from the one loaded for |
| Cart.ScopedCartProvider.SaveEffect | src/context/CartContext.jsx:29-38 | the corrected save writes only under the user the items were loaded for |
| Cart.ScopedCartProvider.Perform | src/context/CartContext.jsx:41-117 | any cart operation applies its transform and keeps every line keyed |
| Cart.UserSwitchKeepsCartsApart | src/context/CartContext.jsx:10-38 | with the corrected protocol the same session keeps A's line under A's key and B's stored cart intact |
| OrderStatus.IndexOf | src/components/CircularOrderStatus.jsx:57 | `indexOf` gives the first index holding the value, or -1 exactly when it is absent |
| OrderStatus.StageNames | src/components/CircularOrderStatus.jsx:11-18 | 'К отгрузке' maps to 'В сборке', 'Отгружен' to 'Готов к доставке', the other four to themselves |
| OrderStatus.CurrentIndexTable | src/components/CircularOrderStatus.jsx:56-57 | the six server names land on stages 0..5 by position, and any other value, a non-string included, gives -1 |
| OrderStatus.UnnamedStage | src/components/CircularOrderStatus.jsx:56 | a string that is not a server name has no stage |
| OrderStatus.NamedStage | src/components/CircularOrderStatus.jsx:56-57 | the server name at position i gives index i |
| OrderStatus.ReachedIsPrefix | src/components/CircularOrderStatus.jsx:90 | circle i is filled iff i ≤ the current index, so the filled circles are a prefix; an unknown status fills none |
| OrderStatus.ArcsFollowStages | src/components/CircularOrderStatus.jsx:71-74 | there are five arcs and arc i is active iff i < the current index, i.e. iff stage i + 1 is reached |
| OrderStatus.OneLabelAtMost | src/components/CircularOrderStatus.jsx:89 | the set of emphasised labels is the current stage alone when recognised, empty otherwise |
| OrderStatus.DeliveredIsLastStage | src/components/CircularOrderStatus.jsx:66 | `isDelivered` holds iff the current index is 5 |
| OrderStatus.RecordStatusShowsNothing | src/components/CircularOrderStatus.jsx:56-57 | a non-string status, such as the record the detail pages pass, gives index -1 and fills no circle |
| OrderBasket.TotalAppend | src/page/OrderBasket.jsx:24-29 | the total of two carts laid end to end is the sum of their totals |
| OrderBasket.TotalEmpty | src/page/OrderBasket.jsx:24-29 | the empty cart totals 0 |
| OrderBasket.TotalAfterIncrease | src/page/OrderBasket.jsx:121 | the "+" button, `increaseQuantity(item.id)`, on a line of a well-formed cart raises the total by that line's parsed price (0 when unparsable) when the line's `id` is set, and leaves the cart unchanged when it is falsy |
| OrderBasket.TotalAfterIncreaseByKey | src/page/OrderBasket.jsx:24-29 | incrementing a line of a well-formed cart by its key raises the total by that line's parsed price (0 when unparsable) |
| OrderBasket.TotalAfterAddNew | src/page/OrderBasket.jsx:24-29 | adding a new keyed product raises the total by price × `(quantity \|\| 1)` |
| OrderBasket.PayloadAppend | src/page/OrderBasket.jsx:39-48 | the payload of two carts end to end is the two payloads end to end |
| OrderBasket.PayloadExactlySubmittable | src/page/OrderBasket.jsx:39-48 | an item is sent iff it comes from a line with a name and some product code; every item has a truthy name and code and a non-zero quantity; never more items than lines |
| OrderBasket.Converted | src/page/OrderBasket.jsx:42-47 | the per-line conversion keeps the length and converts line i into item i |
| OrderBasket.PayloadKeepsOrder | src/page/OrderBasket.jsx:40-47 | the items are sent in cart order: the payload is a subsequence of the converted cart |
| OrderBasket.CodeIffKey | src/page/OrderBasket.jsx:45 | the product code (`Код`, `Артикул`, `id`) and the cart key (`id`, `Код`, `Артикул`) are truthy together |
| OrderBasket.PayloadOfKeyedCart | src/page/OrderBasket.jsx:41 | on a cart of keyed lines only the nameless lines are dropped; with all lines named, every line is sent |
| OrderBasket.ErrorText | src/page/OrderBasket.jsx:66-69 | the error text is the server's message, else the exception's, else the fixed fallback, and it is never falsy |
| OrderBasket.Checkout.constructor | src/page/OrderBasket.jsx:19-22 | not submitting, empty error, both dialogs closed |
| OrderBasket.Checkout.BeginSubmit | src/page/OrderBasket.jsx:36-51 | no request for an empty cart, a missing token or a submission in flight; otherwise the request is the payload and the page is submitting |
| OrderBasket.Checkout.FinishSubmit | src/page/OrderBasket.jsx:62-75 | success opens the success dialog and empties the cart; failure keeps the cart and shows the error text; either way submitting ends |
| OrderBasket.DoubleClickSendsOnce | src/page/OrderBasket.jsx:37 | two submissions before the first settles send one order |
| HistoryOrder.ItemsTotalAppend | src/page/HistoryOrder.jsx:53-56 | the total of two item lists end to end is the sum of their totals |
| HistoryOrder.OrderTotalNonNegative | src/page/HistoryOrder.jsx:53-56 | with no negative price or quantity the order total is not negative |
| HistoryOrder.MissingPartsAddNothing | src/page/HistoryOrder.jsx:53-56 | a non-array and an empty list total 0, and a line missing its price or quantity adds nothing |
| HistoryOrder.StatusLabel | src/page/HistoryOrder.jsx:141 | 'pending' is shown as 'В обработке', any other status as it is |
| HistoryOrder.FilteredMembers | src/page/HistoryOrder.jsx:58-70 | an order is shown iff it was loaded and passes the status and the search test |
| HistoryOrder.FilteredKeepsOrder | src/page/HistoryOrder.jsx:58-70 | the shown orders are an order-preserving subsequence of the loaded ones |
| HistoryOrder.AllBlankShowsEverything | src/page/HistoryOrder.jsx:59-69 | filter 'all' with a blank search shows every loaded order |
| HistoryOrder.StatusFilterExact | src/page/HistoryOrder.jsx:60-62 | 'pending', 'assembled' and 'in_transit' with a blank search keep exactly the orders with that status |
| HistoryOrder.SearchExact | src/page/HistoryOrder.jsx:65-66 | a non-blank term keeps exactly the orders whose lower-cased code contains the lower-cased, untrimmed term |
| HistoryOrder.FilterIdempotent | src/page/HistoryOrder.jsx:58-70 | filtering what is already filtered changes nothing |
| HistoryOrder.TotalPages | src/page/HistoryOrder.jsx:72 | `ceil(total / 10)`: the pages cover the total, the last page is not empty, and the count is 0 iff there are no orders |
| HistoryOrder.PrevPage | src/page/HistoryOrder.jsx:156 | "previous" never goes below 1 and moves back by one from any later page |
| HistoryOrder.NextOnEmptyHistoryAsWritten | src/page/HistoryOrder.jsx:160 | as written, with no orders there are 0 pages, "next" is enabled on page 1 and moves to page 0 |
| HistoryOrder.PageCount | src/page/HistoryOrder.jsx:72 | the corrected page count is `ceil(total / 10)` when there are orders and exactly 1 when there are none |
| HistoryOrder.NextPage | src/page/HistoryOrder.jsx:160 | the corrected "next" stays within [1, page count] and advances by one before the last page |
| HistoryOrder.PagerStaysInRange | src/page/HistoryOrder.jsx:156-160 | from any page in range both buttons keep the page in range, and "next" is disabled exactly on the last page |
| HistoryOrder.NextAgreesOnNonEmptyHistory | src/page/HistoryOrder.jsx:72-160 | with at least one order the corrected "next" and its disabled test are exactly the ones as written, so the correction changes only the empty history |
| HistoryOrder.NextFromPastTheEnd | src/page/HistoryOrder.jsx:160 | from a page past the last one, as a reply with a smaller total leaves it, "next" is enabled and moves back to the last page |
| HistoryOrder.HistoryPage.constructor | src/page/HistoryOrder.jsx:9-16 | no orders, total 0, loading, page 1, filter 'all', empty search |
| HistoryOrder.HistoryPage.FetchEffect | src/page/HistoryOrder.jsx:18-28 | with a token the current page is requested and loading starts; without one nothing happens |
| HistoryOrder.HistoryPage.OnResponse | src/page/HistoryOrder.jsx:29-45 | code 200 takes `payload \|\| []` and `total \|\| 0`; any other code, a failed request or an unreadable body gives no orders and total 0; loading ends |
| HistoryOrder.HistoryPage.PrevClick | src/page/HistoryOrder.jsx:156 | the page moves back by the clamp unless on page 1; nothing else changes |
| HistoryOrder.HistoryPage.NextClick | src/page/HistoryOrder.jsx:160 | "next" is disabled only on the last page itself and otherwise moves by the clamp to the corrected page count, so from past the end it returns to the last page; nothing else changes |
| HistoryOrder.HistoryPage.SetFilter | src/page/HistoryOrder.jsx:15 | only the status filter changes |
| HistoryOrder.HistoryPage.SetSearch | src/page/HistoryOrder.jsx:16 | only the search term changes |
| HistoryOrder.HistoryPage.Visible | src/page/HistoryOrder.jsx:58-70 | the visible rows are exactly the loaded orders that pass the filter |
| PriceList.ClampQty | src/page/PriceList.jsx:24 | a stored quantity is at least 1; a parsed value of at least 1 is kept, anything else (NaN, 0, negative) becomes 1 |
| PriceList.DedupMerges | src/page/PriceList.jsx:54-58 | the merged list has distinct ids, exactly the ids of old and new pages, each the last record for its id, in first-appearance order |
| PriceList.DedupDistinct | src/page/PriceList.jsx:56 | a list whose ids are already distinct comes out unchanged |
| PriceList.HasMoreCases | src/page/PriceList.jsx:60-64 | no meta, or an absent page number, keeps "more" on; two numbers turn it off iff the current page is at or past the last; a `null` page number compares as 0 |
| PriceList.NoMoreStaysOff | src/page/PriceList.jsx:60-61 | once the current page is at or past the last, every later page is too |
| PriceList.PriceListPage.constructor | src/page/PriceList.jsx:11-16 | no products, page 1, more on, no picks, nothing added, not loading |
| PriceList.PriceListPage.Shown | src/page/PriceList.jsx:112 | the quantity shown in a row is at least 1 and is the stored pick when there is one |
| PriceList.PriceListPage.QuantityChange | src/page/PriceList.jsx:23-26 | only that product's pick changes, to the clamped value |
| PriceList.PriceListPage.MinusClick | src/page/PriceList.jsx:123-128 | "−" lowers the pick by one unless it is 1 or the row is added |
| PriceList.PriceListPage.PlusClick | src/page/PriceList.jsx:137-142 | "+" raises the pick by one unless the row is added |
| PriceList.PriceListPage.AddClick | src/page/PriceList.jsx:28-32 | the product goes to the cart with the picked quantity (default 1), and the row is marked added |
| PriceList.PriceListPage.BeginLoad | src/page/PriceList.jsx:34-36 | without a token nothing is requested; with one the page is requested and loading starts |
| PriceList.PriceListPage.FinishLoad | src/page/PriceList.jsx:47-70 | a response merges its page into the list and sets "more" by the meta; a failure keeps the list and turns "more" off; loading ends |
| PriceList.PriceListPage.LoadMore | src/page/PriceList.jsx:77-81 | the page advances by exactly one and that page is requested |
| OrderDates.NormalizeDate | src/page/DetailRealisations.jsx:8-13 | anything other than the dash is the input unchanged |
| OrderDates.NormalizeDateDash | src/page/DetailRealisations.jsx:8-13 | the dash is shown exactly for a missing, empty, whitespace-only or sentinel date (or the dash itself) |
| OrderDates.NormalizeDateIdempotent | src/page/DetailedStory.jsx:25-34 | the result is never blank nor the sentinel, and normalising twice is normalising once |
| OrderDates.MissingStatusIsAllDashes | src/page/DetailRealisations.jsx:48-57 | no status record shows six dashes |
| OrderDates.StampsFromRecord | src/page/DetailRealisations.jsx:50-57 | each of the six dates is its own field of the record unchanged or the dash, never blank nor the sentinel; each field absent from the record shows the dash |
| DetailRealisations.Settle | src/page/DetailRealisations.jsx:42-67 | details load iff the reply is ok with code 200 and a payload; a bad reply is "not found"; a failure shows its message or the fallback; an error is never empty |
| DetailRealisations.SettleLoaded | src/page/DetailRealisations.jsx:48-63 | loaded details carry the payload's order id, the status record (empty when absent) and its dates |
| DetailRealisations.ConfirmButtonThrowsAsWritten | src/page/DetailRealisations.jsx:84 | as written, the status button's click event reaches `normalizeDate`, which throws |
| DetailRealisations.Confirm | src/page/DetailRealisations.jsx:76-88 | null stays null; otherwise `Доставлен` becomes 'Да', no key other than `Доставлен` is added, the delivered date is the normalised given date, or the normalised "now" for no date, an empty one or the button, and the id, other flags and other dates are kept |
| DetailRealisations.ConfirmAgreesWhenNoEvent | src/page/DetailRealisations.jsx:76-88 | the corrected update agrees with the original wherever the original does not throw |
| DetailRealisations.ConfirmIdempotent | src/page/DetailRealisations.jsx:79-86 | confirming twice with the same date is confirming once |
| DetailRealisations.RealisationPage.constructor | src/page/DetailRealisations.jsx:19-21 | no details, loading, no error |
| DetailRealisations.RealisationPage.LoadEffect | src/page/DetailRealisations.jsx:23-32 | without a token or order id: no request, loading off, the bad-request text; otherwise the error is cleared and the status is requested |
| DetailRealisations.RealisationPage.OnResponse | src/page/DetailRealisations.jsx:34-70 | the details or the error text are set by the settled outcome; on error the details are null; loading ends |
| DetailRealisations.RealisationPage.ConfirmClick | src/page/DetailRealisations.jsx:76-88 | the button applies the corrected update; nothing else changes |
| DetailedStory.FindOrder | src/page/DetailedStory.jsx:61-63 | a found row is in the list and its id, as a string, is the order id |
| DetailedStory.FindOrderFirst | src/page/DetailedStory.jsx:61-63 | nothing is found iff no row has the id, and a found row is the first one that has it |
| DetailedStory.ListStep | src/page/DetailedStory.jsx:54-67 | the status request is reached only from an ok list reply |
| DetailedStory.Settle | src/page/DetailedStory.jsx:43-110 | an error message is never empty (the "unknown error" fallback) |
| DetailedStory.SettleLoadedOnlyFromList | src/page/DetailedStory.jsx:87-103 | loaded details come from an ok list containing the order, with that order's code, and an ok status reply with code 200 and a payload |
| DetailedStory.MissingOrderIsNotFound | src/page/DetailedStory.jsx:65-67 | an order id absent from the list is "not found", whatever the status reply |
| DetailedStory.ListFailureReported | src/page/DetailedStory.jsx:54-56 | a list reply that is not ok reports its HTTP status |
| DetailedStory.StatusFailureReported | src/page/DetailedStory.jsx:79-106 | a status reply that is not ok reports its HTTP status; an ok one without code 200 and a payload is "bad status data" |
| DetailedStory.NumericIdMatches | src/page/DetailedStory.jsx:62 | a numeric order id matches its decimal text |
| DetailedStory.Extension | src/page/DetailedStory.jsx:139 | the extension is 'xlsx' iff the format is 'xlsx', else 'pdf' |
| DetailedStory.ReportName | src/page/DetailedStory.jsx:140 | the name is `Заказ_`, then the code, then `.` and the extension |
| DetailedStory.StoryPage.constructor | src/page/DetailedStory.jsx:20-23 | no details, loading, not downloading, no error |
| DetailedStory.StoryPage.LoadEffect | src/page/DetailedStory.jsx:36-41 | without a token or order id nothing happens and loading stays as it was; otherwise loading starts with the error cleared |
| DetailedStory.StoryPage.OnResponses | src/page/DetailedStory.jsx:43-113 | the details or the error are set by the settled outcome; on error the details are null; loading ends |
| DetailedStory.StoryPage.DownloadClick | src/page/DetailedStory.jsx:119-140 | a report is requested iff details are loaded and no download runs, with the order code, the format and the file name |
| DetailedStory.StoryPage.DownloadSettled | src/page/DetailedStory.jsx:143-145 | the download ends; nothing else changes |
| FixQuantityModal.BuildChangesMap | src/components/FixQuantityModal.jsx:5-8 | the `forEach` loop builds the lookup of the changes |
| FixQuantityModal.LastChangeFor | src/components/FixQuantityModal.jsx:6-7 | the index found is the last change naming the code, or -1 when none does |
| FixQuantityModal.LastChangeWins | src/components/FixQuantityModal.jsx:5-8 | a code has an entry iff some change names it, and the entry is the last such change's quantity |
| FixQuantityModal.RowsFrom | src/components/FixQuantityModal.jsx:39-49 | one row per item, numbered from 1 in item order, with its manufacturer (or ""), name and quantity cell |
| FixQuantityModal.Table | src/components/FixQuantityModal.jsx:32-38 | the placeholder row is shown iff there are no items |
| FixQuantityModal.TableShowsLastChange | src/components/FixQuantityModal.jsx:40-49 | a changed product shows the last change's quantity, or "out of stock" when that is 0, in row i + 1 |
| FixQuantityModal.UnchangedItemShowsOwnQuantity | src/components/FixQuantityModal.jsx:47-49 | an item no change names shows its own quantity, or "out of stock" when that is 0 |
| OrderErrorModal.ShownValue | src/components/OrderErrorModal.jsx:27 | the user's entry for the row key when defined, else the quantity ordered |
| OrderErrorModal.RowsFrom | src/components/OrderErrorModal.jsx:25-33 | one row per item, numbered from 1, with its key (`id`, `Код`, `Артикул`), name, ordered quantity and shown value |
| OrderErrorModal.Table | src/components/OrderErrorModal.jsx:20-23 | the placeholder row is shown iff there are no items |
| OrderErrorModal.Edit | src/components/OrderErrorModal.jsx:40 | an edit sends the row key and `Number` of the typed text, unclamped |
| OrderErrorModal.UntouchedShowsOrdered | src/components/OrderErrorModal.jsx:25-33 | with no entries, every row shows the quantity ordered |
| OrderErrorModal.EditIsShown | src/components/OrderErrorModal.jsx:26-27 | an entry stored under a key is shown in every row with that key |
| Auth.Hydrated | src/context/AuthContext.jsx:9-26 | a truthy stored token replaces the token; a truthy stored user text that parses replaces the user; otherwise each stays |
| Auth.HydratedStorage | src/context/AuthContext.jsx:15-23 | only a stored user text that fails to parse is removed; nothing else changes |
| Auth.Persisted | src/context/AuthContext.jsx:28-40 | afterwards storage mirrors the session (each key present iff its value is truthy, with that value), and other keys are kept |
| Auth.LoggedOut | src/context/AuthContext.jsx:50-51 | both keys are absent and every other key is kept |
| Auth.PersistOverwrites | src/context/AuthContext.jsx:28-40 | a later persistence step overwrites whatever an earlier one wrote |
| Auth.HydrateMalformedUser | src/context/AuthContext.jsx:13-22 | a malformed stored user leaves the user null and removes the key, while a stored token is still restored |
| Auth.ReloadRestoresSession | src/context/AuthContext.jsx:9-40 | what persistence wrote, the next mount restores, when `parse` reads back what `stringify` wrote |
| Auth.LogoutIdempotent | src/context/AuthContext.jsx:47-52 | logging out twice is logging out once, and storage then mirrors the empty session |
| Auth.AuthProvider.constructor | src/context/AuthContext.jsx:6-8 | no token, no user, loading |
| Auth.AuthProvider.Hydrate | src/context/AuthContext.jsx:9-26 | the session becomes the hydrated one, storage the hydrated storage, and loading ends whatever storage held |
| Auth.AuthProvider.PersistFor | src/context/AuthContext.jsx:28-40 | storage becomes the persisted storage for the rendered session; state is unchanged |
| Auth.AuthProvider.Mount | src/context/AuthContext.jsx:9-40 | after mounting, loading is over, the session is the hydrated one and storage mirrors it |
| Auth.AuthProvider.Login | src/context/AuthContext.jsx:42-45 | token and user become the given ones; nothing else changes |
| Auth.AuthProvider.Logout | src/context/AuthContext.jsx:47-52 | token and user become null and both keys are removed from storage |
| App.CartUserId | src/App.jsx:25-27 | a user id exists only with a token and a user whose `id` is that string |
| App.CartUserIdCases | src/App.jsx:25-27 | no token or no user gives null, a non-string id gives null, otherwise the id |
| App.Render | src/App.jsx:33-42 | nothing is rendered iff auth is loading; the root path redirects to the catalogue iff there is a token |
| App.NumericIdLeavesCartAlone | src/App.jsx:26 | a numeric user id gives no user id, so the cart neither loads nor writes storage |
| SetPassword.EnabledIffSameNonEmpty | src/page/SetPassword.jsx:60 | the button is enabled iff both fields hold the same non-empty text |
| SetPassword.Validate | src/page/SetPassword.jsx:22-30 | the request goes out iff the passwords match and a phone is present; a mismatch is reported before a missing phone |
| SetPassword.EnabledSubmitIsNotMismatch | src/page/SetPassword.jsx:22-25 | an enabled button never meets the mismatch error |
| SetPassword.Settle | src/page/SetPassword.jsx:38-56 | a login happens iff the reply succeeded with a truthy token, the user being the payload without the token; an error text is never empty |
| SetPassword.MissingTokenRejected | src/page/SetPassword.jsx:38-43 | a reply without a truthy token is "bad reply"; the rest of the payload never blocks a login |
| SetPassword.ErrorTexts | src/page/SetPassword.jsx:50-56 | a 400 shows the server's message or the fallback; every other failure is the connection error |
| SetPassword.PasswordForm.constructor | src/page/SetPassword.jsx:12 | the error starts empty |
| SetPassword.PasswordForm.Submit | src/page/SetPassword.jsx:18-36 | the error is cleared and then set by the first failed check; the phone and password are sent only when both checks pass |
| SetPassword.PasswordForm.OnReply | src/page/SetPassword.jsx:38-56 | on a login, token and user's JSON are written, `login` is called, storage mirrors the session and the form moves to `/dashboard`; otherwise only the error is set |

## Left out

- HTTP requests, `axios`, `fetch`, headers, URLs and `saveAs` are not modelled; each reply is an input of the handler that receives it.
- Navigation is not modelled; `SetPassword.PasswordForm.OnReply` only returns the target path. That path, `/dashboard`, has no route in `src/App.jsx`, so after a successful password set no page is shown.
- React scheduling and rendering are not modelled. Effects are methods run in sequence with the values of their render, and state updates take effect at once. Two clicks inside one render, which both read the same `isSubmitting`, are therefore not modelled.
- Floating point is not modelled: prices and quantities are integers. `parseFloat`, `parseInt`, `Number`, `JSON.parse`, `JSON.stringify` and `toLowerCase` are parameters, with None standing for NaN or a parse error. `toFixed`, dates, locales and `console` output are left out.
- JavaScript `null` and `undefined` are one absent value, except for the page numbers of `PriceList.HasMoreAfter`, where `null` compares as 0 and an absent number as NaN. Where a field is modelled as a `Value` it is a string, a number or absent; the fields listed next are modelled as strings.
- FixQuantityModal.Cell: a change whose `Количество` is `null` counts as absent here and falls back to the item's own quantity. In the code the test `changedQuantity !== undefined` lets `null` through, and `Number(null)` is 0, so that row shows "Нет в наличии".
- HistoryOrder.SearchExact: an order's `code` is a string here. In the code, `order.code.toLowerCase()` throws a TypeError when the code is missing or a number and the search term is not blank; that throw is not modelled.
- OrderDates.NormalizeDate: the status record's dates are strings here. In the code, a date that is truthy but not a string (a number or an object) makes `dateStr.trim()` throw in both detail pages; that throw is not modelled.
- `Auth.UserRecord` keeps only the user's `id`, the one field the core reads.
- Cart.CartProvider.UpdateQuantity: takes the quantity after `Number()`; a non-numeric value (NaN, which passes the `< 1` guard) is not modelled.
- OrderBasket.Total: a line without a quantity adds 0 here; in the code it makes the total NaN. Cart lines created by `addToCart` always carry a quantity.
- SetPassword.PasswordForm.OnReply: the token is stored as its string form, and exceptions thrown by the storage writes or `JSON.stringify` are not modelled.
- Auth: a stored or given token that is the empty string counts as absent, as the truthiness tests in the code make it.
- The drawing of the status component is not modelled: positions, arcs' geometry, colours and icons.
- The route table of `src/App.jsx` has no route for the realisation page, and `src/page/DetailedStory.jsx` renders the status component without `onConfirm`; the model of the confirm update is therefore reachable only from `DetailRealisations`.
- Both detail pages pass the status record object as the status component's `apiStatus`, so no stage is ever highlighted there (`OrderStatus.RecordStatusShowsNothing`).
- `src/components/FixQuantityModal.jsx` and `src/components/OrderErrorModal.jsx` are modelled without a caller: none of the pages modelled renders them. `src/page/OrderBasket.jsx` renders a dialog of its own, defined in that file, under the same name (`OrderErrorModal`).
- Login, registration, verification-code, profile, password-change and reporting pages, the headers, the other dialogs, `RequireAuth` and the build configuration are not part of this model.

## Findings

| source | as written | input that shows it | evidently intended | confidence | as-written member | corrected member |
|---|---|---|---|---|---|---|
| src/context/CartContext.jsx:7-34 | the `hasLoadedCart` ref is set once and never reset, and the save effect writes under the current `userId` | while user A is signed in with a line in the cart, user B sets a password on `/setPassword`, a route without a sign-in guard (`src/App.jsx:45`); the page calls `loginByToken` and navigates to `/dashboard` without a reload (`src/page/SetPassword.jsx:47-48`), so the user id goes from A to B in the same provider: B's cart is not loaded and A's lines are saved under `cart_B`. Signing out through the header reloads the page (`src/components/OrderHeader.jsx:158-159`) and does not show it | the cart is reloaded when the user changes and saved only under the user it was loaded for | high (not executed) | Cart.UserSwitchLeaksCart | Cart.UserSwitchKeepsCartsApart |
| src/page/HistoryOrder.jsx:72-160 | `totalPages` is 0 with no orders, and "next" is disabled only when `page === totalPages` | 0 orders on page 1: "next" is enabled and `Math.min(2, 0)` moves to page 0, which is then requested | the page count is at least 1, so the pager stays in [1, page count]; with at least one order the pager is the one as written (`HistoryOrder.NextAgreesOnNonEmptyHistory`) | high (not executed) | HistoryOrder.NextOnEmptyHistoryAsWritten | HistoryOrder.PagerStaysInRange |
| src/page/DetailRealisations.jsx:84 | `onConfirm` is the button's `onClick`, so `handleStatusConfirm` receives the click event as `confirmedDate` and passes it to `normalizeDate` | pressing "Подтвердить получение" on loaded details: the event has no `trim`, so the update throws a TypeError | the button confirms with the current time | high (not executed) | DetailRealisations.ConfirmButtonThrowsAsWritten | DetailRealisations.ConfirmAgreesWhenNoEvent |
