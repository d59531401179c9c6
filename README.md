# Laundry shop client, modelled in Dafny

This project models the client-side logic of a laundry shop's single-page web client. The client has these screens:

- a cashier point of sale: an intake cart, the order list, payment, status changes and driver assignment;
- a customer ordering flow: a cart, a stored checkout hand-off and an order page with a progress bar;
- public order tracking;
- an administrator's user table and service catalogue;
- a driver's task list;
- a role-based dashboard;
- the role-guarded route table, a role-filtered side menu, the toast/notification store and the signed-in session;
- the dotted world map's row indexing.

The server does the pricing, payment, change calculation and status transitions. Here it is an input: each request becomes an `Outcome` (`Success(data)` or `Failure(message)`), handed to the page as a parameter. Requests that a handler sends are recorded in the page's `sent` log as `Api.Request` values, so "no request is sent" reads `sent == old(sent)`.

Modules follow the source files:

- `Cart`, `PosOrders` and `OrderData` cover the cashier's `Orders.jsx`.
- `CustomerOrder` covers `NewOrder.jsx` and `Checkout.jsx` with their `pending_cart` hand-off.
- `Tracking` covers `Tracking.jsx` and the tracking widget of `LandingPage.jsx`.
- `Stages`, `CustomerDetail`, `PosDetail`, `Portal`, `Dashboard`, `Driver`, `Users` and `Services` cover one page each.
- `Routes`, `Layout` and `Sidebar` cover `App.jsx`, `Layout.jsx` and `Sidebar.jsx`.
- `Notifications` and `Topbar` cover the notification store and its bell menu.
- `Auth` and `Storage` cover the session over browser storage.
- `DottedMap` covers the map component.

`Text`, `Search`, `Seqs` and `Wrappers` hold the string, search, filtering and option helpers shared by the pages.

Pages whose handlers change state step by step are classes with a field per piece of React state. Each handler is a method that states the page's whole new state. A request with a busy flag is split into `StartX`, which applies the guard, sets the flag and sends the request, and `FinishX(outcome)`, which applies the answer and clears the flag. Pure lookups, filters and totals are functions, with lemmas relating them to one another.

## Model

| member | source | states |
|---|---|---|
| Text.Digits | src/pages/public/Tracking.jsx:14 | the digit filter keeps only digits and never lengthens the input |
| Text.DigitsAppend | src/pages/public/Tracking.jsx:14 | filtering a concatenation is the concatenation of the filtered parts, so digits keep their order |
| Text.DigitsOfDigits | src/pages/public/Tracking.jsx:14 | an id typed as plain digits is kept unchanged |
| Text.DigitsOfNonDigits | src/pages/public/Tracking.jsx:14 | input without any digit is cleaned to the empty string |
| Text.DigitsTrimStart | src/pages/public/Tracking.jsx:14 | removing leading white space does not change the digits found |
| Text.DigitsTrimEnd | src/pages/public/Tracking.jsx:14 | removing trailing white space does not change the digits found |
| Text.DigitsTrim | src/pages/public/Tracking.jsx:14 | the `trim()` before the digit filter never changes the cleaned id |
| Text.Lower | src/pages/cashier/Orders.jsx:182 | lower-casing keeps the length and maps each character on its own |
| Text.Upper | src/pages/customer/CustomerPortal.jsx:106 | upper-casing keeps the length and maps each character on its own |
| Text.Humanize | src/pages/cashier/Orders.jsx:238 | a status label has no underscore left; every other character stays where it was |
| Text.Includes | src/pages/cashier/Orders.jsx:182-183 | `includes` holds exactly when the term occurs at some position; the empty term always occurs |
| Text.NatToString | src/pages/cashier/Orders.jsx:183 | an id is rendered as a non-empty string of digits |
| Text.ParseNatToString | src/pages/cashier/Orders.jsx:183 | reading the rendered id back as a decimal gives the id |
| Search.LowerUpper | src/pages/cashier/Orders.jsx:182 | lower-casing an upper-cased term equals lower-casing the term |
| Search.NoNonDigitInDigits | src/pages/cashier/Orders.jsx:183 | a term containing a non-digit never occurs in a digit string |
| Search.IdMatchIgnoresCase | src/pages/cashier/Orders.jsx:183 | the case of the term does not change which ids match, although the id test does not lower-case |
| Search.TextSearchIgnoresCase | src/pages/admin/Services.jsx:103-105 | a text search gives the same answer for the term, its upper-case and its lower-case form |
| Search.NameOrIdSearchIgnoresCase | src/pages/cashier/Orders.jsx:181-184 | the order search gives the same answer for the term and its upper-case form |
| Search.EmptyTermAndOwnIdMatch | src/pages/cashier/Orders.jsx:181-184 | an empty search keeps every order, and an order is always found by its own id, with or without a customer name |
| Search.IdMatchesAnySubstring | src/pages/cashier/Orders.jsx:183 | for every id, any run of its decimal digits finds the row whatever its name, the last digit alone included (so "1" finds order 21); without a name only such runs do |
| Stages.StepsDistinct | src/pages/customer/OrderDetail.jsx:73-81 | the seven stages are pairwise different |
| Stages.FindIndex | src/pages/customer/OrderDetail.jsx:83 | -1 exactly when the key is absent; otherwise the first position that holds the key |
| Stages.StatusIndex | src/pages/customer/OrderDetail.jsx:83 | -1 exactly for a status outside the seven stages; otherwise the stage at that index is the status |
| Stages.CompletedIsPrefix | src/pages/customer/OrderDetail.jsx:139 | the stages drawn as completed are a prefix ending at the current stage; an unknown status completes none |
| Stages.CurrentSteps | src/pages/customer/OrderDetail.jsx:140 | a known status marks exactly one stage as current; an unknown status marks none |
| Stages.ProgressWidthBounds | src/pages/customer/OrderDetail.jsx:134 | the fill is 0% at pending and 100% at completed, never shrinks as the stage advances, and stays within 0..100 |
| Stages.UnknownStatusWidth | src/pages/customer/OrderDetail.jsx:134 | an unknown status gives the negative width -100/6 % |
| Stages.OneEntryHighlighted | src/pages/customer/OrderDetail.jsx:217-223 | a non-empty timeline highlights exactly one entry, the newest; an empty one highlights none |
| Stages.CustomerLogText | src/pages/customer/OrderDetail.jsx:237 | a non-empty description is shown as is; otherwise the sentence names the status with spaces for underscores |
| Stages.CashierLogText | src/pages/cashier/POSDetail.jsx:342 | a non-empty description is shown as is; otherwise the sentence names the upper-cased status |
| Stages.StyleFor | src/pages/customer/CustomerPortal.jsx:25-36 | a listed status gets its own colour; any other status gets the fallback |
| Stages.StyleTablesCoverStages | src/pages/cashier/Orders.jsx:168-179 | both colour tables list exactly the seven stages, and the fallback colour belongs to no stage |
| Stages.DisplayedOption | src/pages/cashier/POSDetail.jsx:228-239 | the select shows the value when it is an option, and otherwise its first option |
| Stages.CashierDropdownHidesDelivery | src/pages/cashier/Orders.jsx:424-429 | as written, `delivery` is a stage but not an option, and an order in delivery is shown as `pending` |
| Stages.StatusDropdownsShowEveryStage | src/pages/cashier/POSDetail.jsx:232-238 | with all seven options, both dropdowns show every known status as itself and offer every stage |
| Cart.WithQuantity | src/pages/customer/NewOrder.jsx:38-46 | every line with the targeted id takes the new quantity computed from its old one, every other line is kept exactly, and the order is kept |
| Cart.AddToCart | src/pages/cashier/Orders.jsx:71-78 | afterwards the service has a line; the cart grows by one only when the service had no line, and existing lines keep their ids |
| Cart.Remove | src/pages/cashier/Orders.jsx:85-87 | no line with the id is left, every other line survives, and nothing new appears |
| Cart.RemoveAbsent | src/pages/cashier/Orders.jsx:85-87 | removing an id that has no line leaves the cart unchanged |
| Cart.RemoveKeepsOrder | src/pages/cashier/Orders.jsx:85-87 | removal works piecewise, so the surviving lines keep their order |
| Cart.ItemsPayload | src/pages/cashier/Orders.jsx:91-122 | the order request has one item per cart line, in cart order, carrying only the service id and the quantity |
| Cart.AddExisting | src/pages/cashier/Orders.jsx:71-74 | adding a service that has a line raises that line's quantity by 1 and changes nothing else |
| Cart.AddNew | src/pages/cashier/Orders.jsx:75-76 | adding a service without a line appends one line with quantity 1 at the end |
| Cart.AddTwice | src/pages/cashier/Orders.jsx:71-78 | adding a service twice to an empty cart gives one line of quantity 2 |
| Cart.SetNonPositiveRemoves | src/pages/cashier/Orders.jsx:80-83 | setting a quantity of 0 or less deletes the line |
| Cart.SetPositiveChangesOnlyThatLine | src/pages/cashier/Orders.jsx:80-83 | a positive quantity changes only that line's quantity |
| Cart.Round1Properties | src/pages/customer/NewOrder.jsx:38-46 | rounding gives a whole number of tenths at most 0.05 away, and keeps the 0.1 floor |
| Cart.Round1OfTenths | src/pages/customer/NewOrder.jsx:38-46 | a quantity that is already in tenths is not changed by the rounding |
| Cart.StepChangesOnlyThatLine | src/pages/customer/NewOrder.jsx:38-46 | the +/- buttons change only the targeted line, to at least 0.1 and a whole number of tenths, and never remove it |
| Cart.TotalAppend | src/pages/cashier/Orders.jsx:89 | the total of two carts joined is the sum of their totals |
| Cart.TotalIsFold | src/pages/cashier/Orders.jsx:89 | the back-to-front total equals the front-to-back `reduce` from 0 over price times quantity, for every cart |
| Cart.FoldAddsTotal | src/pages/cashier/Orders.jsx:89 | the `reduce` started from any running sum adds the cart's total to it |
| Cart.TotalUpdate | src/pages/cashier/Orders.jsx:89 | replacing a line changes the total by the difference of the two subtotals |
| Cart.BumpRaisesTotal | src/pages/cashier/Orders.jsx:89 | one more unit on a line raises the total by that line's unit price |
| Cart.AddExistingRaisesTotal | src/pages/cashier/Orders.jsx:71-74 | adding a service already in the cart raises the total by its unit price |
| Cart.AddNewRaisesTotal | src/pages/cashier/Orders.jsx:75-76 | adding a new service raises the total by its price |
| Cart.RemoveDropsOneLine | src/pages/cashier/Orders.jsx:85-87 | in a cart with one line per service, removing a line's id drops exactly that line |
| Cart.DropLowersTotal | src/pages/cashier/Orders.jsx:89 | dropping a line lowers the total by its subtotal |
| Cart.RemoveLowersTotal | src/pages/cashier/Orders.jsx:85-89 | removing a line lowers the total by that line's subtotal |
| Cart.AddKeepsIdsDistinct | src/pages/cashier/Orders.jsx:71-78 | adding keeps one line per service |
| Cart.RemoveKeepsIdsDistinct | src/pages/cashier/Orders.jsx:85-87 | removing keeps one line per service |
| Cart.RemoveSubsequence | src/pages/cashier/Orders.jsx:85-87 | the lines that survive a removal still have pairwise different ids |
| Cart.CashierEditKeepsIdsDistinct | src/pages/cashier/Orders.jsx:71-87 | any single add, quantity change or removal keeps one line per service |
| Cart.CashierEditsKeepIdsDistinct | src/pages/cashier/Orders.jsx:71-87 | service ids stay pairwise different under any sequence of cashier edits |
| Cart.CustomerEditKeepsValid | src/pages/customer/NewOrder.jsx:29-50 | any single customer edit keeps one line per service with quantities of at least 0.1 in whole tenths |
| Cart.CustomerEditsKeepValid | src/pages/customer/NewOrder.jsx:29-50 | the customer's cart stays valid under any sequence of edits |
| OrderData.PaymentAccepted | src/pages/cashier/Orders.jsx:140-164 | a payment goes ahead exactly when an amount was entered and it is at least the total; exactly the total is accepted |
| OrderData.FilterOrders | src/pages/cashier/Orders.jsx:181-184 | the listed orders are exactly the matching ones: every listed order matches, and every matching order is listed |
| OrderData.EmptySearchListsAll | src/pages/cashier/Orders.jsx:181-184 | an empty search box lists every order in server order |
| OrderData.SearchByIdFindsOrder | src/pages/cashier/Orders.jsx:183 | searching for an order's id always lists that order |
| PosOrders.PosTerminal.ShownStatusOption | src/pages/cashier/Orders.jsx:403 | with all seven options, the dropdown shows the opened order's known status as itself |
| PosOrders.PosTerminal.constructor | src/pages/cashier/Orders.jsx:13-27 | the page opens loading, with an empty cart, customer 1 preselected, both modals closed and nothing sent |
| PosOrders.PosTerminal.LoadOrders | src/pages/cashier/Orders.jsx:37-51 | a successful load replaces the list, a failed one keeps it, loading ends either way, and no other field of the page changes |
| PosOrders.PosTerminal.SetSearch | src/pages/cashier/Orders.jsx:212 | the whole page state after typing is the old one with only the term replaced |
| PosOrders.PosTerminal.OpenIntake | src/pages/cashier/Orders.jsx:195 | the whole page state after the click is the old one with only the intake modal open, so the cart survives a close and reopen |
| PosOrders.PosTerminal.CloseIntake | src/pages/cashier/Orders.jsx:271 | the whole page state after closing is the old one with only the intake modal closed; the cart is kept |
| PosOrders.PosTerminal.SelectCustomer | src/pages/cashier/Orders.jsx:301-311 | the whole page state after a pick is the old one with only the chosen customer replaced; the blank option chooses none |
| PosOrders.PosTerminal.EditCart | src/pages/cashier/Orders.jsx:71-87 | only the cart changes, to the edit applied to the old cart, and it keeps one line per service; nothing is sent |
| PosOrders.PosTerminal.StartCreateOrder | src/pages/cashier/Orders.jsx:91-104 | a request goes out exactly when not already submitting and the cart is non-empty; it carries the chosen customer, the cart's items and 'unpaid', and submitting is the only other change; otherwise nothing changes |
| PosOrders.PosTerminal.FinishCreateOrder | src/pages/cashier/Orders.jsx:105-122 | success closes the modal and empties the cart, failure keeps both, submitting ends either way, and nothing else changes |
| PosOrders.PosTerminal.OpenDetail | src/pages/cashier/Orders.jsx:124-138 | a detail with an order becomes the opened one, opens the modal and clears the receipt and the amount, changing nothing else; otherwise nothing changes |
| PosOrders.PosTerminal.CloseDetail | src/pages/cashier/Orders.jsx:381 | the whole page state after closing is the old one with only the detail modal closed; the opened order and the cart are kept |
| PosOrders.PosTerminal.EnterAmount | src/pages/cashier/Orders.jsx:477 | the whole page state after typing is the old one with only the amount replaced |
| PosOrders.PosTerminal.Pay | src/pages/cashier/Orders.jsx:140-164 | a payment request for the opened order and the typed amount goes out exactly when an order is open and the amount covers its total; only a successful answer stores the receipt; nothing else changes, and a refused payment changes nothing at all |
| PosOrders.PosTerminal.ChangeStatus | src/pages/cashier/Orders.jsx:399-422 | a status change appends one status update for the opened order with the chosen stage, and the rest of the page state is as before |
| PosOrders.PayAndRefresh | src/pages/cashier/Orders.jsx:158-160 | once the refreshed detail arrives after a payment, the receipt is gone and the new detail is shown |
| PosDetail.PosDetailPage.StatusOptions | src/pages/cashier/POSDetail.jsx:232-238 | the status dropdown of this page offers every one of the seven stages |
| PosDetail.PosDetailPage.LogText | src/pages/cashier/POSDetail.jsx:342 | a log entry with a description shows that description |
| PosDetail.PosDetailPage.constructor | src/pages/cashier/POSDetail.jsx:33-40 | the page opens loading, with no order, no request in flight, a blank amount and nothing sent |
| PosDetail.PosDetailPage.Refresh | src/pages/cashier/POSDetail.jsx:51-69 | when both requests succeed the order and its log are replaced together, otherwise both are kept; loading ends either way |
| PosDetail.PosDetailPage.StartStatusUpdate | src/pages/cashier/POSDetail.jsx:80-83 | an update is sent exactly when none is in flight; it carries this page's order id and the chosen stage, and marking the update in flight is the only other change; otherwise nothing changes |
| PosDetail.PosDetailPage.FinishStatusUpdate | src/pages/cashier/POSDetail.jsx:96-98 | the whole page state afterwards is the old one with only the in-flight flag cleared, whatever the answer |
| PosDetail.PosDetailPage.StartAssignDriver | src/pages/cashier/POSDetail.jsx:101-105 | an assignment for this order and the picked driver is sent exactly when a driver was picked and none is in flight, and marking it in flight is the only other change; otherwise nothing changes |
| PosDetail.PosDetailPage.FinishAssignDriver | src/pages/cashier/POSDetail.jsx:118-120 | the whole page state afterwards is the old one with only the in-flight flag cleared, whatever the answer |
| PosDetail.PosDetailPage.EnterAmount | src/pages/cashier/POSDetail.jsx:39 | the whole page state after typing is the old one with only the amount replaced |
| PosDetail.PosDetailPage.Pay | src/pages/cashier/POSDetail.jsx:123-152 | a payment request for this order and the typed amount goes out exactly when the amount covers the total; only a successful answer stores the receipt; nothing else changes, and a refused payment changes nothing at all |
| PosDetail.PayAndRefresh | src/pages/cashier/POSDetail.jsx:143-144 | after a payment and the refresh it starts, the receipt is still shown beside the new data |
| CustomerOrder.ReadPending | src/pages/customer/Checkout.jsx:17-24 | nothing stored reads as no cart; a stored cart reads back as exactly that cart; any other stored text cannot be parsed |
| CustomerOrder.StoreCart | src/pages/customer/NewOrder.jsx:57 | the hand-off slot holds the cart's lines with their total, and every other storage entry is unchanged |
| CustomerOrder.HandOffKeepsCart | src/pages/customer/NewOrder.jsx:54-59 | checkout reads back exactly the cart that was stored, and the order built from it carries the same lines |
| CustomerOrder.CompletedCheckoutForgetsCart | src/pages/customer/Checkout.jsx:36 | once the hand-off is removed, checkout finds nothing pending |
| CustomerOrder.NewOrderPage.constructor | src/pages/customer/NewOrder.jsx:29-52 | the order page opens with an empty, valid cart and has not moved on |
| CustomerOrder.NewOrderPage.EditCart | src/pages/customer/NewOrder.jsx:29-50 | an edit applies to the cart, keeps it valid, and neither stores nor moves on |
| CustomerOrder.NewOrderPage.Checkout | src/pages/customer/NewOrder.jsx:54-59 | an empty cart does nothing; otherwise the cart with its total is stored and the page moves to checkout |
| CustomerOrder.CheckoutPage.Mount | src/pages/customer/Checkout.jsx:17-24 | with nothing stored the page goes to the dashboard, with a stored cart it shows that cart, and unreadable text leaves it unable to render |
| CustomerOrder.CheckoutPage.SelectPayment | src/pages/customer/Checkout.jsx:115-132 | the whole page state after a click is the old one with only the payment method replaced |
| CustomerOrder.CheckoutPage.StartConfirm | src/pages/customer/Checkout.jsx:26-32 | an order is sent exactly when not already submitting; it carries the cart's lines and the payment method and no customer id, and submitting is the only other change; otherwise nothing changes |
| CustomerOrder.CheckoutPage.FinishConfirm | src/pages/customer/Checkout.jsx:33-53 | success records the new order id, completes the page and erases the hand-off and nothing else; failure only ends submitting; the cart and payment method are kept either way, so the cash due is still known |
| CustomerOrder.CheckoutPage.CashDue | src/pages/customer/Checkout.jsx:79 | after completion, cash on pickup asks for exactly the stored total, and bank transfer asks for no cash |
| CustomerOrder.OrderFlow | src/pages/customer/Checkout.jsx:26-53 | checkout of a non-empty cart, then mount, confirm and a successful answer, sends one order with the cart's lines and leaves nothing pending |
| Wrappers.MessageOr | src/pages/public/Tracking.jsx:26 | a non-empty server message is shown; a missing or empty one falls back to the page's own text |
| Auth.InitialUser | src/context/AuthContext.jsx:7-15 | the app starts signed in exactly when an account is stored under 'user', and then as that account |
| Auth.StoreLogin | src/context/AuthContext.jsx:22-23 | login stores the token and the account and leaves every other key as it was |
| Auth.StoreLogout | src/context/AuthContext.jsx:34-35 | logout erases exactly the token and the account |
| Auth.ReloadRestoresSession | src/context/AuthContext.jsx:7-37 | a reload after login restores that user, and a reload after logout restores nobody |
| Auth.SessionLeavesCartAlone | src/context/AuthContext.jsx:18-37 | neither login nor logout touches the checkout hand-off |
| Auth.AuthSession.constructor | src/context/AuthContext.jsx:7-16 | the session starts with the user a reload restores, not loading |
| Auth.AuthSession.StartLogin | src/context/AuthContext.jsx:18-21 | a login sends the credentials and sets loading, keeping the session as it was |
| Auth.AuthSession.FinishLogin | src/context/AuthContext.jsx:22-31 | success stores token and account and signs that user in; failure reports the server's message or 'Login failed' and changes nothing; loading ends either way |
| Auth.AuthSession.Logout | src/context/AuthContext.jsx:33-37 | logout signs the user out and erases the token and the account, so the shown user still matches what a reload would restore |
| Tracking.CleanId | src/pages/public/Tracking.jsx:14 | the cleaned id is all digits and equals the digits of the raw input; the trim never matters |
| Tracking.LabelDigits | src/pages/cashier/Orders.jsx:235 | the digits of a printed receipt label `#ORD-<id>` are exactly the id in decimal |
| Tracking.CleanReceiptLabel | src/pages/public/Tracking.jsx:13-14 | typing a receipt label `#ORD-<id>`, with any blanks around it, looks up exactly that id |
| Tracking.NoDigitsNoLookup | src/pages/public/Tracking.jsx:16 | input without a digit cleans to nothing, so no lookup is made |
| Tracking.FailureText | src/pages/public/LandingPage.jsx:92-93 | the tracking page shows the server's message or its own fallback; the landing page always shows its own text; the error is never empty |
| Tracking.ToggleFaq | src/pages/public/LandingPage.jsx:325 | a click opens the question exactly when it was not the open one, and closes everything otherwise |
| Tracking.FaqAccordion | src/pages/public/LandingPage.jsx:325 | at most one answer is open; clicking a question twice closes it if it was open and otherwise closes everything; clicking one question then another leaves exactly the second open |
| Tracking.Tracker.constructor | src/pages/public/LandingPage.jsx:25-29 | a tracker starts with empty input, no result, no error, not loading and no open answer |
| Tracking.Tracker.Type | src/pages/public/Tracking.jsx:49 | the whole tracker state after typing is the old one with only the input replaced |
| Tracking.Tracker.StartTrack | src/pages/public/Tracking.jsx:11-23 | a lookup of the cleaned id starts exactly when not loading and the cleaned id is non-empty; it clears the old result and error and sets loading, and otherwise nothing changes |
| Tracking.Tracker.FinishTrack | src/pages/public/Tracking.jsx:22-30 | success shows the result; failure shows the page's failure text; loading ends either way, and the input, the open answer and the sent requests are kept |
| Tracking.Tracker.ClickFaq | src/pages/public/LandingPage.jsx:325 | the whole tracker state after a FAQ click is the old one with only the open question toggled |
| CustomerDetail.PaymentMethodShown | src/pages/customer/OrderDetail.jsx:256 | the payment method is shown when present and non-empty, otherwise 'BANK'; never empty |
| CustomerDetail.HeaderBadge | src/pages/customer/OrderDetail.jsx:101 | the header badge is green exactly for a completed order |
| CustomerDetail.CustomerOrderPage.constructor | src/pages/customer/OrderDetail.jsx:25-27 | the page opens loading with no order |
| CustomerDetail.CustomerOrderPage.Refresh | src/pages/customer/OrderDetail.jsx:31-44 | both requests succeed and replace what is shown, or nothing changes; loading ends either way |
| CustomerDetail.CustomerOrderPage.Progress | src/pages/customer/OrderDetail.jsx:134 | the fill of a known status stays within 0..100 and a completed order is filled completely |
| CustomerDetail.FailedPollKeepsOrder | src/pages/customer/OrderDetail.jsx:39-50 | after an order has been shown, a failed poll keeps it and never shows "not found" |
| Portal.ActiveCount | src/pages/customer/CustomerPortal.jsx:58 | the active count never exceeds the number of orders |
| Portal.CompletedCount | src/pages/customer/CustomerPortal.jsx:68 | the completed count never exceeds the number of orders |
| Portal.CountsAddUp | src/pages/customer/CustomerPortal.jsx:58-68 | every order is counted on exactly one of the two count cards |
| Portal.UnknownStatusIsActive | src/pages/customer/CustomerPortal.jsx:58 | an order with a status outside the seven stages counts as active |
| Portal.TotalSpentAppend | src/pages/customer/CustomerPortal.jsx:63 | the total of two order lists joined is the sum of their totals |
| Portal.TotalSpentIsFold | src/pages/customer/CustomerPortal.jsx:63 | the back-to-front sum equals the front-to-back `reduce` from 0 over the order totals |
| Portal.FoldAddsSpent | src/pages/customer/CustomerPortal.jsx:63 | the `reduce` started from any running sum adds the orders' total to it |
| Portal.TotalSpentCoversEachOrder | src/pages/customer/CustomerPortal.jsx:63 | with non-negative totals, the card is at least any single order's total |
| Portal.TotalSpentNonNegative | src/pages/customer/CustomerPortal.jsx:63 | with non-negative totals, the card is never negative |
| Portal.RowIconStyle | src/pages/customer/CustomerPortal.jsx:82 | a row's icon tile is green exactly for a completed order |
| Portal.PortalPage.constructor | src/pages/customer/CustomerPortal.jsx:7-8 | the history opens loading with no orders |
| Portal.PortalPage.Load | src/pages/customer/CustomerPortal.jsx:14-23 | success shows the customer's orders, failure keeps the empty history, and loading ends |
| Dashboard.RoleOf | src/pages/common/Dashboard.jsx:24 | the reported role is used when present and non-empty, otherwise 'admin'; never empty |
| Dashboard.Figure | src/pages/common/Dashboard.jsx:58-73 | a figure the stats carry is shown as is, a missing one as 0 |
| Dashboard.CardTable | src/pages/common/Dashboard.jsx:58-73 | every role has four cards, and the third is money exactly for the customer and business tables |
| Dashboard.CustomerCards | src/pages/common/Dashboard.jsx:58-62 | a customer sees active orders, total orders, total spending (money) and points, each read from its own figure |
| Dashboard.DriverCards | src/pages/common/Dashboard.jsx:62-66 | a driver sees available tasks, deliveries under way, deliveries done and driver points, none of them money |
| Dashboard.OtherRolesShowBusinessCards | src/pages/common/Dashboard.jsx:67-72 | every role other than customer and driver sees the same four business cards, revenue third as money |
| Dashboard.Cards | src/pages/common/Dashboard.jsx:58-73 | four cards for every role, and a card is an amount of money exactly when it is the third one for a role other than driver |
| Dashboard.MissingRoleShowsBusinessCards | src/pages/common/Dashboard.jsx:24 | a stats answer without a role shows the same cards as for an admin or a cashier, with revenue third |
| Dashboard.ActivityLink | src/pages/common/Dashboard.jsx:169 | an activity row links drivers to their task list and everyone else to the order history |
| Dashboard.DashboardLinksOpen | src/pages/common/Dashboard.jsx:169-261 | the administrator's all-orders link opens the order list, and the activity link opens the task list or the order history, for any signed-in user |
| Dashboard.FirstWord | src/pages/common/Dashboard.jsx:81 | the greeting uses a prefix of the full name that has no space and ends at the first space or at the end |
| Dashboard.DashboardPage.constructor | src/pages/common/Dashboard.jsx:10-15 | the page opens loading, with no figures, no error and the admin role |
| Dashboard.DashboardPage.Refresh | src/pages/common/Dashboard.jsx:18-31 | success replaces the figures and the role but leaves any earlier error; failure sets the error and keeps the figures; loading ends either way |
| Dashboard.DashboardPage.Shown | src/pages/common/Dashboard.jsx:40-73 | cards are shown exactly when loading is over and there is no error, and they are the role's cards over the current figures |
| Dashboard.FailedPollSticks | src/pages/common/Dashboard.jsx:25-37 | after one failed poll the cards stay hidden, even when the next poll succeeds |
| Driver.Endpoint | src/pages/driver/Driver.jsx:36 | the pickup call is made exactly for a task ready for delivery; every other status, unknown ones included, gets the delivery call |
| Driver.ActionLabel | src/pages/driver/Driver.jsx:113-130 | the button text always matches the call it makes |
| Driver.BadgeClass | src/pages/driver/Driver.jsx:91 | the primary badge is used exactly for tasks in delivery |
| Driver.FilterTasks | src/pages/driver/Driver.jsx:51-54 | the listed tasks are exactly the matching ones, by customer name or id |
| Driver.EmptyMessage | src/pages/driver/Driver.jsx:81 | the "no tasks" text is shown exactly when no search is typed |
| Driver.EmptySearchListsAllTasks | src/pages/driver/Driver.jsx:51-54 | with nothing typed, every task is listed in server order |
| Driver.DriverPage.constructor | src/pages/driver/Driver.jsx:8-11 | the page opens loading, with no tasks, no search and no task updating |
| Driver.DriverPage.Refresh | src/pages/driver/Driver.jsx:22-31 | success replaces the tasks, failure keeps them, and loading ends |
| Driver.DriverPage.SetSearch | src/pages/driver/Driver.jsx:51-54 | typing changes only the term: tasks, loading, the updating task and the sent requests are kept |
| Driver.DriverPage.StartAction | src/pages/driver/Driver.jsx:33-37 | a click sends that task's call exactly when its own button is enabled, and the task becomes the updating one; tasks, term and loading are kept, and a disabled click changes nothing |
| Driver.DriverPage.FinishAction | src/pages/driver/Driver.jsx:46-48 | any answer clears the updating task, whichever task it belongs to, and keeps tasks, term, loading and the sent requests |
| Driver.OverlappingActions | src/pages/driver/Driver.jsx:34-47 | as written, two tasks clicked in turn let the second be sent twice once the first answer arrives |
| Driver.GuardedDriverPage.constructor | src/pages/driver/Driver.jsx:10 | the guarded page starts with nothing in flight |
| Driver.GuardedDriverPage.StartAction | src/pages/driver/Driver.jsx:33-37 | a click sends that task's call exactly when that task has no request out |
| Driver.GuardedDriverPage.FinishAction | src/pages/driver/Driver.jsx:46-48 | an answer re-enables only its own task's button |
| Driver.OverlappingActionsGuarded | src/pages/driver/Driver.jsx:117-126 | with the buttons kept per task, the same clicks send each task's call once, and the unanswered task stays disabled |
| Services.FilterServices | src/pages/admin/Services.jsx:103-105 | the listed services are exactly those whose name contains the term, ignoring case |
| Services.FormOf | src/pages/admin/Services.jsx:37-41 | editing a service fills the form with its own name, unit and price |
| Services.Payload | src/pages/admin/Services.jsx:55 | the request body carries the form's name, unit and price and nothing else |
| Services.SubmitRequest | src/pages/admin/Services.jsx:55-64 | a submit updates the service being edited, or creates one when none is, with the same body either way |
| Services.ServicesPage.constructor | src/pages/admin/Services.jsx:11-19 | the page opens loading, with the modal closed, a blank kilogram form and nothing sent |
| Services.ServicesPage.Load | src/pages/admin/Services.jsx:25-34 | success replaces the list, failure keeps it, and loading ends; the modal and form are untouched |
| Services.ServicesPage.SetSearch | src/pages/admin/Services.jsx:122 | typing in the search box changes only the term |
| Services.ServicesPage.OpenModal | src/pages/admin/Services.jsx:36-49 | the modal opens, filled from the given service which becomes the edited one, or blank with unit 'kg' when none is given |
| Services.ServicesPage.CloseModal | src/pages/admin/Services.jsx:192 | the close button hides the modal and keeps the form and the edited service |
| Services.ServicesPage.EditForm | src/pages/admin/Services.jsx:16-18 | typing changes only the form |
| Services.ServicesPage.StartSubmit | src/pages/admin/Services.jsx:51-64 | a submission is sent exactly when none is in flight and the form passes the browser's check (a non-empty name, a whole-number price: Services.jsx:215, 253-258), as an update or creation built from the form; otherwise nothing changes |
| Services.ServicesPage.FinishSubmit | src/pages/admin/Services.jsx:71-81 | success closes the modal, failure leaves it as it was, and submitting ends either way |
| Services.ServicesPage.Delete | src/pages/admin/Services.jsx:84-101 | a deletion request is sent exactly when the prompt was confirmed, and nothing else changes |
| Services.EditThenSubmit | src/pages/admin/Services.jsx:36-64 | submitting a service's form as opened sends it back to its own id when its name and price pass the browser's check; the blank form of a new service is blocked and sends nothing |
| Users.FromServer | src/pages/admin/UserManagement.jsx:28-31 | loaded rows copy the server's users one for one and none is dirty |
| Users.RoleChanged | src/pages/admin/UserManagement.jsx:44-48 | rows with that id take the new role and become dirty; every other row is unchanged |
| Users.MarkedClean | src/pages/admin/UserManagement.jsx:59-62 | rows with that id stop being dirty and keep their role; every other row is unchanged |
| Users.RoleChangeMarksDirty | src/pages/admin/UserManagement.jsx:44-48 | a role change adds exactly that user, when listed, to the users with unsaved changes |
| Users.SaveMarksClean | src/pages/admin/UserManagement.jsx:59-62 | a successful save removes exactly that user from the users with unsaved changes |
| Users.ChangeThenSave | src/pages/admin/UserManagement.jsx:44-62 | a change followed by its save leaves that user with the new role and nothing unsaved, and the other rows as they were |
| Users.SaveLabel | src/pages/admin/UserManagement.jsx:189 | the button reads SIMPAN exactly for a row with unsaved changes, and TERSIMPAN otherwise |
| Users.SaveButtonFollowsEdits | src/pages/admin/UserManagement.jsx:176 | a role change enables that user's save button unless its save is out, a successful save disables it, and other rows' buttons do not move |
| Users.RoleBadge | src/pages/admin/UserManagement.jsx:79-86 | admin, cashier and driver get colours of their own; every other role gets the neutral one |
| Users.BadgesTellStaffApart | src/pages/admin/UserManagement.jsx:79-86 | the three staff colours are pairwise different, and 'customer' shows the neutral one |
| Users.FilterUsers | src/pages/admin/UserManagement.jsx:74-77 | the listed users are exactly those whose username or full name contains the term, ignoring case |
| Users.UserAdminPage.constructor | src/pages/admin/UserManagement.jsx:19-22 | the page opens loading, with no users, no search and no save in flight |
| Users.UserAdminPage.Load | src/pages/admin/UserManagement.jsx:28-42 | a successful load shows the server's users with nothing unsaved; a failure keeps the table; loading ends |
| Users.UserAdminPage.SetSearch | src/pages/admin/UserManagement.jsx:74-77 | typing in the search box changes only the term |
| Users.UserAdminPage.ChangeRole | src/pages/admin/UserManagement.jsx:165 | a pick in the role selector changes that user's role and marks exactly that user unsaved |
| Users.UserAdminPage.StartSave | src/pages/admin/UserManagement.jsx:176 | a save is sent exactly when the button is enabled, that is the row is dirty and not already saving; it carries the row's role |
| Users.UserAdminPage.FinishSave | src/pages/admin/UserManagement.jsx:52-71 | success clears exactly that user's unsaved mark, failure keeps the table, and the saving id is cleared either way |
| Routes.Guard | src/App.jsx:21-26 | the children render exactly when a user is signed in and, if roles are listed, holds one of them; otherwise the user is sent to the sign-in page or to the dashboard |
| Routes.AppChild | src/App.jsx:43-62 | a child of `/app` carries either no role guard of its own, or the staff or administrator list |
| Routes.Apply | src/App.jsx:21-26 | a guard's decision shows the screen exactly when it is to render |
| Routes.InsideApp | src/App.jsx:38-42 | without a user an `/app` child leads to sign-in; it shows exactly when its own guard renders |
| Routes.ResolveChild | src/App.jsx:38-62 | a path under `/app/` naming a child leads wherever the layout's guard and then the child's guard send the user |
| Routes.AppNeedsSignIn | src/App.jsx:38-43 | without a user every `/app` page, the index included, leads to the sign-in page |
| Routes.PublicPagesOpen | src/App.jsx:33-36 | the landing, sign-in, sign-up and public tracking pages show to anyone |
| Routes.IndexGoesToDashboard | src/App.jsx:43 | a signed-in user asking for `/app` is sent on to the dashboard |
| Routes.UsersPageIsAdminOnly | src/App.jsx:52-56 | the user table shows exactly to an administrator; any other signed-in user is sent to the dashboard |
| Routes.PosDetailIsStaffOnly | src/App.jsx:46-50 | an order's POS page shows exactly to an administrator or a cashier; any other signed-in user is sent to the dashboard |
| Routes.SignInOnlyPagesShow | src/App.jsx:44-62 | every other `/app` page shows to any signed-in user, whatever the role |
| Routes.UnknownPathGoesHome | src/App.jsx:64 | every path outside `/app` other than the four public pages goes back to the landing page for any user |
| Routes.UnknownAppPathGoesHome | src/App.jsx:38-64 | every path under `/app/` naming no child goes back to the landing page for any user, before any guard |
| Routes.Resolve | src/App.jsx:31-65 | a path only ever redirects to sign-in, the dashboard or the landing page; a non-public screen shows only to a signed-in user; a public screen only at its own path |
| Layout.RoleOf | src/components/Layout.jsx:28 | there is a role exactly when a user is signed in and has one |
| Layout.FilteredMenu | src/components/Layout.jsx:19-28 | the menu holds exactly the table's entries that are shown to the user's role, each of them an entry of the table |
| Layout.CustomerMenu | src/components/Layout.jsx:20-25 | a customer sees Dashboard, Pesan Laundry and My Orders |
| Layout.AdminMenu | src/components/Layout.jsx:20-25 | an administrator sees Dashboard, Orders & POS, Services and Logistics |
| Layout.CashierMenu | src/components/Layout.jsx:20-25 | a cashier sees Dashboard and Orders & POS |
| Layout.DriverMenu | src/components/Layout.jsx:20-25 | a driver sees Dashboard and Logistics |
| Layout.NoRoleNoMenu | src/components/Layout.jsx:28 | without a user, or with a role no entry lists, the menu is empty |
| Sidebar.AdjustHrefs | src/components/Sidebar.jsx:194-197 | each entry is kept with `/app` put in front of its link, in the same order |
| Sidebar.MenuHrefsDistinct | src/components/Layout.jsx:19-26 | no two entries of the menu table link to the same page |
| Sidebar.FilteredHrefsDistinct | src/components/Layout.jsx:28 | every user's menu links to pairwise different pages |
| Sidebar.FilterKeepsHrefsDistinct | src/components/Layout.jsx:28 | filtering a table whose links are distinct keeps them distinct |
| Sidebar.OneActiveLink | src/components/Sidebar.jsx:152 | on the page of one menu link, that link and no other is highlighted |
| Sidebar.LinkShows | src/App.jsx:44-62 | each link target of the menu table shows to any signed-in user |
| Sidebar.PageShows | src/App.jsx:44-62 | each page the menu links to shows to any signed-in user |
| Sidebar.MenuLinksShow | src/components/Sidebar.jsx:194-197 | no menu link sends a signed-in user to a guard's redirect |
| Sidebar.UseSidebar | src/components/Sidebar.jsx:10-16 | the hook throws, with its message, exactly outside a provider, and otherwise hands out the provider's context |
| Sidebar.DesktopWidth | src/components/Sidebar.jsx:77 | the desktop sidebar is 280 pixels wide exactly when it does not animate or is open, and 84 otherwise |
| Sidebar.LabelsOnlyWhenWide | src/components/Sidebar.jsx:77-153 | on the desktop labels show exactly when the sidebar is open, never on the 84-pixel bar |
| Sidebar.OpenState.constructor | src/components/Sidebar.jsx:192 | the layout's open state starts at the given value |
| Sidebar.SidebarProvider.constructor | src/components/Sidebar.jsx:18-28 | a provider starts closed on its own state, with `animate` true and `isMobile` false unless given |
| Sidebar.SidebarProvider.SetOpen | src/components/Sidebar.jsx:28 | `setOpen` writes the caller's state when a setter is given, and the provider's own state otherwise |
| Sidebar.HoverCycle | src/components/Sidebar.jsx:83-84 | hovering the layout's sidebar widens it to 280 pixels with labels, and leaving narrows it to 84 pixels without them |
| Sidebar.MobileDrawer | src/components/Sidebar.jsx:132 | the drawer's provider stays open and shows labels whatever `setOpen` is called with |
| Notifications.Stamp | src/components/ui/Notification.jsx:9-11 | a stored notification keeps its own id when it has one, and otherwise takes the current time as its id; the rest is copied |
| Notifications.Without | src/components/ui/Notification.jsx:12-14 | exactly the notifications with another id are kept, in their order |
| Notifications.RemoveAbsent | src/components/ui/Notification.jsx:12-14 | removing an id nobody has changes nothing |
| Notifications.RemoveIdempotent | src/components/ui/Notification.jsx:12-14 | removing the same id twice is the same as removing it once |
| Notifications.RemoveKeepsOrder | src/components/ui/Notification.jsx:12-14 | removal works piece by piece on a list split in two, so the survivors keep their order |
| Notifications.NotificationStore.constructor | src/components/ui/Notification.jsx:8 | the store starts with no notifications |
| Notifications.NotificationStore.Add | src/components/ui/Notification.jsx:9-11 | a new notification is appended after the existing ones, stamped |
| Notifications.NotificationStore.Remove | src/components/ui/Notification.jsx:12-14 | every notification with that id leaves the store and the rest stay in order |
| Notifications.ToastKind | src/components/ui/Notification.jsx:23 | a notification without a type is shown as 'info' |
| Notifications.ToastIcon | src/components/ui/Notification.jsx:29-34 | success shows the check icon, error the alert icon, and every other type the info icon |
| Notifications.ToastOpenChange | src/components/ui/Notification.jsx:27 | a toast that closes removes its notification from the store; one that opens changes nothing |
| Topbar.Badge | src/components/Topbar.jsx:43-47 | the bell shows a count exactly when there are notifications, and the count is their number |
| Topbar.EntryIcon | src/components/Topbar.jsx:71 | an entry shows the check icon exactly when its type is success |
| Topbar.ToggledTheme | src/components/Topbar.jsx:31 | the toggle turns dark into light and anything else into dark |
| Topbar.ToggleTwice | src/components/Topbar.jsx:31 | toggling a light or dark theme twice brings it back |
| Topbar.DeleteEntry | src/components/Topbar.jsx:78 | deleting an entry removes every notification with its id |
| Topbar.ClearStart | src/components/Topbar.jsx:91 | before the first removal of the clear-all loop the whole list is still there |
| Topbar.ClearStep | src/components/Topbar.jsx:91 | each removal in the clear-all loop takes away one more of the ids shown when the button was pressed |
| Topbar.ClearEnd | src/components/Topbar.jsx:91 | once every shown id is removed, none of the shown notifications is left |
| Topbar.ClearAll | src/components/Topbar.jsx:88-91 | removing each shown notification in turn leaves the store empty |
| DottedMap.Insert | src/components/ui/DottedMap.jsx:26 | inserting a point into a row-sorted list keeps it sorted and adds exactly that point |
| DottedMap.SortPoints | src/components/ui/DottedMap.jsx:26 | the points come out ordered by y and then by x, and are a permutation of the input |
| DottedMap.RowYs | src/components/ui/DottedMap.jsx:33-36 | the rows are the distinct y values of the points, each listed once |
| DottedMap.RowsIncrease | src/components/ui/DottedMap.jsx:26-36 | on sorted points the rows are met in strictly increasing y |
| DottedMap.RowIndexFollowsY | src/components/ui/DottedMap.jsx:36 | a point lower on the map than another gets a higher row index |
| DottedMap.ScanStepIsMinimumGap | src/components/ui/DottedMap.jsx:38-41 | the scanned step is zero exactly when no two neighbours in a row are apart, and otherwise is the smallest such gap, attained by some pair |
| DottedMap.XStep | src/components/ui/DottedMap.jsx:45 | the horizontal step is positive, 1 when no gap was measured, and never more than any measured gap |
| DottedMap.ScanRows | src/components/ui/DottedMap.jsx:27-43 | the loop numbers the rows 0, 1, 2, ... in order of first appearance and computes the smallest positive gap within a row |
| DottedMap.Generate | src/components/ui/DottedMap.jsx:17-49 | the map keeps the library's points and markers, indexes its rows and takes the smallest gap as its step; a library error yields the empty map with step 1 |
| DottedMap.Render | src/components/ui/DottedMap.jsx:52-86 | nothing is drawn exactly when there are no points; otherwise one dot per point and then one circle per marker, odd rows shifted right by half a step when staggered, a marker's size defaulting to the dot radius |
| DottedMap.ShiftStaysInsideGap | src/components/ui/DottedMap.jsx:63 | a shifted dot lands strictly between its row neighbours |
| DottedMap.FailureDrawsNothing | src/components/ui/DottedMap.jsx:46-52 | a failed generation draws nothing |

## Left out

- The network. Every request is an `Outcome` input and every sent request is an `Api.Request` record. Server-side pricing, change calculation and the legality of status transitions are not part of this model. Response bodies are typed values, not JSON.
- Polling timers: the `setInterval` refreshes and their clean-up. Each poll is one call of the page's `Refresh`.
- Concurrency between overlapping handlers beyond what the `Driver` findings spell out; a handler's answer is applied to the page's current state.
- Users.UserAdminPage.FinishSave: applies the answer to the current table. The source maps over the `users` captured when Save was clicked, so a role picked while the save is out is lost; this model does not show that loss.
- Floating point. Money, quantities and map coordinates are mathematical reals; NaN and infinities do not occur. `parseFloat` of the amount field is modelled as an already parsed `Option<real>`. `toLocaleString` and `toFixed` formatting for display are not modelled.
- Cart.Round1Properties: the customer's `toFixed(1)` rounding is rounding half up to tenths on exact reals, not binary floating point.
- JavaScript's coercion of the cashier's quantity input to a number before `<= 0` is modelled as a real parameter.
- `Date.now()`, which gives a notification its id, is the `now` parameter of `Notifications.NotificationStore.Add`.
- `createMap` and `addMarkers` from the dotted-map library are the `Created` input of `DottedMap.Generate`. Its sort comparator is modelled as the order on (y, x); the stability of the sort does not matter, since equal points are identical.
- Browser plumbing is left out: `navigate`, `window.print`, `window.open`, and the smooth-scroll, animation, toast-widget and chart libraries. `window.confirm` before a service deletion is the `confirmed` parameter of `Services.ServicesPage.Delete`. A redirect is the returned `View` or a `navigated` flag.
- Toasts raised by the pages themselves. The store that holds them is modelled in `Notifications`.
- Case mapping is ASCII only; `toLowerCase`/`toUpperCase` of letters outside ASCII are not modelled. `trim` uses the ECMAScript white-space and line-terminator set.
- `JSON.parse` of arbitrary text: a stored slot holds either a typed value or unreadable text.
- The router's matching is by exact path. Trailing slashes, case-insensitive matching and URL decoding are not modelled.
- Pages and files with no statable logic are not part of this model:
  - the sign-in and sign-up forms;
  - the axios set-up;
  - the theme context;
  - the header, footer, avatar, text-reveal and maintenance components;
  - all markup and styling apart from the role and status lookup tables.
- PosOrders.PosTerminal.ChangeStatus: requires that the signed-in role may change status, because the source only renders the dropdown for those roles.
- Handlers guarded only by a disabled button follow the button, not the handler, which has no in-flight check of its own. A second click that reaches the handler some other way is not modelled. This covers:
  - Tracking.Tracker.StartTrack (Tracking.jsx:11-23, button disabled while loading);
  - PosOrders.PosTerminal.StartCreateOrder (Orders.jsx:91-98, button at 355);
  - CustomerOrder.CheckoutPage.StartConfirm (Checkout.jsx:26-27, button at 167);
  - PosDetail.PosDetailPage.StartStatusUpdate and StartAssignDriver (POSDetail.jsx:80-81 and 101-103, controls at 229 and 252);
  - Services.ServicesPage.StartSubmit (Services.jsx:51-53, button at 266).
- Services.ServicesPage.StartSubmit: the browser's form validation is modelled only as far as the form's own attributes go: required name and price, and the whole-number step of a number input without `step`. Localised number parsing is not modelled.

## Findings

| source | as written | input that shows it | evidently intended | confidence | as-written member | corrected member |
|---|---|---|---|---|---|---|
| src/pages/cashier/Orders.jsx:424-429 | the cashier's status dropdown lists six options and leaves out `delivery` | an order whose status is `delivery` opened in the cashier's detail modal: the select shows `pending`, the first option | all seven stages listed, as the POS detail page does | not executed; medium | Stages.CashierDropdownHidesDelivery | Stages.StatusDropdownsShowEveryStage |
| src/pages/driver/Driver.jsx:34-47 | one `updating` id for the whole page, cleared by whichever answer arrives first | click task A, then task B, then let A's answer arrive: B's button is enabled again while B's request is still out, and a second click sends B's call twice | an in-flight mark per task, so a button stays disabled until its own answer | not executed; medium | Driver.OverlappingActions | Driver.OverlappingActionsGuarded |
