# Gearnix core, modelled in Dafny

Gearnix is a small e-commerce shop for gaming gear: an Express/Sequelize backend that
places orders, and a React client with a session context, a route guard, a shopping cart
with a checkout dialog, an account page, a profile page, a sign-in form, and two admin
pages (a user list and a dashboard). This project models the decision logic of those parts
and proves what they promise:

- `OrderController.dfy`: the backend's `createOrder` transaction over an in-memory
  store (`class OrderStore`), order numbering, and the `getUserOrders` query.
- `AuthContext.dfy`: token expiry tests on the JWT `exp` claim (section 4.1.4 of RFC 7519),
  and the startup, login, timer and logout steps over the two storage keys `token` and `user`
  (`class Session`).
- `ProtectedRoutes.dfy`: the guard's priority chain and the three route presets.
- `UserSettings.dfy`: the password-change validation chain, the strength meter and the
  visibility toggles (`class PasswordSettings`).
- `ShoppingCart.dfy`: the totals rule, the required-field checks, the order request and
  the checkout step machine (`class Checkout`).
- `ManageUsers.dfy`: search filtering, route-to-modal classification and its round trip
  with the route builder, and the list updates of the five handlers.
- `Dashboard.dfy`: per-order revenue, the statistics loop (revenue and status tally), the
  ten most recent orders, stock buckets, relative-time labels and status colours.
- `Login.dfy`: the credential decision and the e-mail pattern, with a matcher proved equal
  to a declarative reading of the pattern.
- `Profile.dfy`: load and cancel normalisation, the dotted-name change handler, the upload
  check, and save (`class ProfilePage`).
- `Strings.dfy`, `Ordering.dfy`, `Wrappers.dfy`: the JavaScript string operations used
  (`includes`, `startsWith`, `padStart`, `length` in UTF-16 code units, `slice(-n)`, `trim`,
  `toLowerCase`, decimal rendering), a descending sort by key with its correctness and
  stability lemmas, and `Option`.

Clocks, the current year, decoded tokens, `JSON.parse`/`JSON.stringify` and the backend's
answers are parameters. Browser storage is a `map<string, string>`. Money is `real`, and ids
and quantities are unbounded integers.

The checkout request names the payment text `method`; in the model the field is
`paymentMethod`, because `method` is a Dafny keyword.

## Model

| member | source | states |
|---|---|---|
| OrderController.OrderStore.CreateOrder | backend/controllers/orderController.js:4-138 | The checks run in a fixed order (user, cart, details, then each line's stock). A rejected request returns the first failing check and leaves products, orders, items and the id counter as they were. A committed request returns 201 data with the next id and the final number. It appends exactly one order row and one item row per cart line, applies every line's stock and sold update, and bumps the id counter. The store invariant is kept. |
| OrderController.OrderStore.Commit | backend/controllers/orderController.js:62-127 | The committed writes: the order row is inserted with the placeholder number and then renumbered. Afterwards the table holds the final row `PlacedOrder`, the items of every line, and the applied stock updates. The store invariant is kept: ids are unique and below the counter, each order number encodes its id, and every item belongs to an order. |
| OrderController.StageLines | backend/controllers/orderController.js:89-112 | The second loop yields exactly `items + ItemsFor(id, cart)` and the product table with every line's update applied in cart order. |
| OrderController.OrderStore.constructor | backend/controllers/orderController.js:2 | An empty order store over a catalogue satisfies the store invariant, with next id 1. |
| OrderController.OrderStore.OrderNumbersUnique | backend/controllers/orderController.js:83-84 | In a valid store, two distinct orders never share an order number. |
| OrderController.HttpStatus | backend/controllers/orderController.js:12-35 | A response is 201 exactly when it is a created order, 401 exactly when the user is missing, and 400 for every other rejection. |
| OrderController.Message | backend/controllers/orderController.js:15-57 | The rejection message is never empty. A missing product's message and a short-stock message each carry the product's name, at a fixed position where it reads back. |
| OrderController.ResponseBody | backend/controllers/orderController.js:14-57 | `success` is true exactly for a created order. A created order says "Order created successfully", and a rejection carries the `Message` of its failure. |
| OrderController.MessagesDistinguishFailures | backend/controllers/orderController.js:15-57 | Equal messages come from the same check, and two missing-product messages are equal only for the same product name. |
| OrderController.CheckRequestPriority | backend/controllers/orderController.js:12-60 | Each check wins over every later one. A request passes exactly when the user is present, the cart non-empty, customer, payment and totals given, and every line is in stock. |
| OrderController.FirstFailingLineNone | backend/controllers/orderController.js:42-60 | The fail-fast stock loop finds no failing line exactly when every line's product exists with at least the line's quantity. |
| OrderController.FormatOrderNumber | backend/controllers/orderController.js:83 | The final order number starts with `ORD-`. |
| OrderController.OrderNumberRoundTrip | backend/controllers/orderController.js:83 | Parsing the final number gives back exactly the year and the id. |
| OrderController.OrderNumberInjective | backend/controllers/orderController.js:83 | Two final numbers are equal only for the same year and id. |
| OrderController.OrderNumberPadding | backend/controllers/orderController.js:83 | Ids below 100 appear as exactly three digits. Ids of three or more digits appear unpadded. |
| OrderController.ParseOrderNumberParts | backend/controllers/orderController.js:83 | `ORD-<y>-<d>` with two non-empty digit strings reads back as their values. |
| OrderController.ParseYearAndIdParts | backend/controllers/orderController.js:83 | `<y>-<d>` with two non-empty digit strings splits into their values at the first dash. |
| OrderController.FirstDashAfterDigits | backend/controllers/orderController.js:83 | After a run of digits, the first dash is the one right after them. |
| OrderController.PlacedOrder | backend/controllers/orderController.js:68-84 | The stored order keeps the user, total and subtotal as supplied. Shipping and tax are 0 when absent. The delivery estimate is creation time + 432000000 ms. The number encodes the order's id. |
| OrderController.ItemOf | backend/controllers/orderController.js:92-99 | An item row copies product id, quantity, price, name and image from the cart line, not from the product row. |
| OrderController.ItemsFor | backend/controllers/orderController.js:89-99 | One item row per cart line, in cart order, all for the given order. |
| OrderController.ApplyCartEffect | backend/controllers/orderController.js:101-111 | After the updates, each product's stock has dropped and its sold count risen by the cart's total quantity for it. Nothing else about products or the set of products changes. |
| OrderController.UntouchedOutsideCart | backend/controllers/orderController.js:101-111 | A product no line names is left as it was. |
| OrderController.QuantityForAbsent | backend/controllers/orderController.js:101-111 | A product no line names is ordered in total quantity 0. |
| OrderController.QuantityForDistinct | backend/controllers/orderController.js:101-111 | With distinct ids, a product's total quantity is that of its one line. |
| OrderController.DistinctCartKeepsStock | backend/controllers/orderController.js:42-60 | With distinct product ids, a cart that passes the check leaves every stock non-negative. |
| OrderController.DuplicateLinesOverdraw | backend/controllers/orderController.js:42-60 | Counterexample: stock 5 and two lines of 3 for the same product pass the check, and the stock ends at -1. |
| OrderController.OrderStore.CreateOrderGuarded | backend/controllers/orderController.js:42-60 | Corrected transaction: each line must fit in what the earlier lines left. A committed order never drives a stock below zero, duplicates included. It rejects exactly when the corrected check `CheckRequestGuarded` (the presence checks in order, then the cumulative stock check) reports a failure, and with that failure. On carts with distinct ids it accepts and rejects exactly as the original. Rejections leave the store unchanged. |
| OrderController.FirstOverdrawNone | backend/controllers/orderController.js:42-60 | When the corrected check finds nothing, every line fits in the stock left by the lines before it. |
| OrderController.FitsBoundsTotal | backend/controllers/orderController.js:42-60 | When every line fits in what its predecessors left, the cart's total for each product is within its stock. |
| OrderController.GuardedCheckKeepsStock | backend/controllers/orderController.js:101-111 | The corrected check keeps every stock non-negative after the updates. |
| OrderController.GuardedAgreesOnDistinct | backend/controllers/orderController.js:42-60 | On carts with distinct ids, the corrected check reports exactly what the original check reports. |
| OrderController.ValidAfterCommit | backend/controllers/orderController.js:68-99 | Appending an order with the next id, whose number encodes it, and items that belong to it keeps the tables valid. |
| OrderController.CommitKeepsTablesValid | backend/controllers/orderController.js:68-112 | The tables after one committed order and its lines are valid again, with the counter one higher. |
| OrderController.RenumberLast | backend/controllers/orderController.js:84 | Updating the just-inserted row's number leaves the earlier rows and puts the final row last. |
| OrderController.OrdersOf | backend/controllers/orderController.js:153-154 | Keeps exactly the orders of the given user, each as many times as the table holds it. |
| OrderController.ItemsOf | backend/controllers/orderController.js:155-159 | Keeps exactly the item rows of the given order, each as many times as the table holds it. |
| OrderController.WithItems | backend/controllers/orderController.js:155-159 | Each order is paired with exactly its own items, in order. |
| OrderController.WithItemsCovers | backend/controllers/orderController.js:153-159 | Every order of the user appears in the joined list with its own items. |
| OrderController.WithItemsSound | backend/controllers/orderController.js:153-159 | Every joined entry is one of the user's orders with exactly its own items. |
| OrderController.UserOrders | backend/controllers/orderController.js:140-161 | 401 exactly without a user. Otherwise the user's orders joined with their items, as a permutation, sorted newest first. |
| OrderController.UserOrdersCorrect | backend/controllers/orderController.js:140-161 | 401 exactly without a user. Otherwise: every order of that user and no other, each with exactly its items, newest first by creation time, one entry per order. |
| Ordering.SortDescCorrect | backend/controllers/orderController.js:160 | The descending sort is a permutation of its input and is sorted by the key. |
| Ordering.SortDescStable | frontend/src/pages/Admin/Dashboard.jsx:180-184 | The sort is stable: for every key, the elements with that key come out in their input order, as `Array.prototype.sort` keeps them. |
| Strings.JsLength | frontend/src/pages/User/UserSettings.jsx:40 | A string's `length` lies between its character count and twice that. |
| Strings.JsLengthOfBmp | frontend/src/pages/User/UserSettings.jsx:40 | Within the Basic Multilingual Plane, `length` is the character count. |
| Strings.JsLengthOfAstral | frontend/src/pages/User/UserSettings.jsx:40 | Each character outside the Basic Multilingual Plane adds two code units. |
| Ordering.TakeOfSorted | frontend/src/pages/Admin/Dashboard.jsx:185 | A prefix of a sorted list is sorted, and no element left out has a larger key than one kept. |
| AuthContext.IsTokenExpired | frontend/src/contexts/AuthContext.jsx:16-29 | No token or an undecodable one is expired. A token without `exp` never is. Otherwise it is expired iff exp < now + 300. An expired decodable token is also expiring soon. |
| AuthContext.IsTokenExpiringSoon | frontend/src/contexts/AuthContext.jsx:32-44 | True exactly for a present token with an `exp` claim and exp − now < 3600. |
| AuthContext.ExpiryIsMonotone | frontend/src/contexts/AuthContext.jsx:16-44 | Once expired or expiring soon, a token stays so as the clock advances. |
| AuthContext.IsAdmin | frontend/src/contexts/AuthContext.jsx:177 | An admin is a user and is authenticated. |
| AuthContext.IsUser | frontend/src/contexts/AuthContext.jsx:178 | A user is authenticated. |
| AuthContext.Session.constructor | frontend/src/contexts/AuthContext.jsx:47-49 | The initial state: no user, loading, no warning, and storage as the browser has it. |
| AuthContext.Session.ClearStorage | frontend/src/contexts/AuthContext.jsx:63-64 | Both session keys are removed and nothing else. |
| AuthContext.Session.CheckAuth | frontend/src/contexts/AuthContext.jsx:53-101 | With both keys: an expired token, an unreadable user or one without role or email clears both keys and the user. Otherwise the user is set and the warning raised iff the token expires soon. With a key missing: no user, storage untouched. Loading ends on every path. |
| AuthContext.Session.Login | frontend/src/contexts/AuthContext.jsx:124-150 | Fails, changing nothing, iff role or email is missing or the token is expired, with the message matching the first failing check. Otherwise both keys are stored, the user set and the warning cleared. |
| AuthContext.Session.Tick | frontend/src/contexts/AuthContext.jsx:108-122 | With a user and an expired stored token it logs out. With a token expiring soon it raises the warning. Otherwise nothing changes. |
| AuthContext.Session.Logout | frontend/src/contexts/AuthContext.jsx:153-160 | Both keys are removed, there is no user and no warning. |
| AuthContext.ReloadAfterLogin | frontend/src/contexts/AuthContext.jsx:53-150 | A successful login followed by a restart restores the same user while the token has not expired. It restores no one once it has. After a refused login, the restart restores exactly what it would have restored without the attempt. |
| AuthContext.ReloadAfterLogout | frontend/src/contexts/AuthContext.jsx:53-160 | After logout, a restart finds no session and raises no warning. |
| ProtectedRoutes.Guard | frontend/src/components/ProtectedRoutes.jsx:6-83 | A spinner exactly while loading. A login redirect exactly when sign-in is required and missing. The page renders exactly when every requirement holds. Redirects go only to the three known paths. Once the earlier checks pass: missing admin rights redirect to the user dashboard, an unlisted role shows the Unauthorized page, and a signed-in user on a public page goes to the dashboard of their role. |
| ProtectedRoutes.AdminRoute | frontend/src/components/ProtectedRoutes.jsx:86-90 | Renders exactly for a loaded admin. A visitor goes to login, a non-admin to the user dashboard, and the Unauthorized page never shows. |
| ProtectedRoutes.UserRoute | frontend/src/components/ProtectedRoutes.jsx:93-97 | Renders exactly for a loaded user with role "user" or "admin". A visitor goes to login and any other role sees Unauthorized. |
| ProtectedRoutes.PublicRoute | frontend/src/components/ProtectedRoutes.jsx:100-104 | Renders exactly for a loaded visitor. Signed-in users go to the dashboard of their role. |
| ProtectedRoutes.PublicAndPrivateExclusive | frontend/src/components/ProtectedRoutes.jsx:38-79 | No session state renders both a public page and a page that requires sign-in. |
| ProtectedRoutes.AdminPagesAreUserPages | frontend/src/components/ProtectedRoutes.jsx:86-97 | Whoever may open an admin page may open every user page. |
| UserSettings.PasswordProblem | frontend/src/pages/User/UserSettings.jsx:35-59 | Reports the first failure in the page's order, each message exactly under its condition. None is reported exactly for a current password, a new one of at least 8 UTF-16 code units equal to the confirmation and different from the current one. |
| UserSettings.PasswordSettings.HandlePasswordChange | frontend/src/pages/User/UserSettings.jsx:30-83 | A failing submission shows its error and keeps the form. A passing one clears all three fields and shows the success message. The toggles are untouched. |
| UserSettings.PasswordSettings.constructor | frontend/src/pages/User/UserSettings.jsx:17-28 | Empty fields, all three hidden, no banner, not loading. |
| UserSettings.CountTrue | frontend/src/pages/User/UserSettings.jsx:104 | The count of true checks is at most their number. It reaches it exactly when all hold, and is 0 exactly when none does. |
| UserSettings.CountTrueIsMultiplicity | frontend/src/pages/User/UserSettings.jsx:104 | The count equals the number of times `true` occurs in the list. |
| UserSettings.Checks | frontend/src/pages/User/UserSettings.jsx:96-102 | The meter has exactly five checks; `StrongIffAllChecks` says what they test, with the length counted in UTF-16 code units. |
| UserSettings.PasswordStrength | frontend/src/pages/User/UserSettings.jsx:92-112 | An empty password scores 0 with no label. Otherwise the score is the number of checks met, at most 5, with its label. |
| UserSettings.StrongIffAllChecks | frontend/src/pages/User/UserSettings.jsx:96-111 | "Strong" is shown exactly for a password meeting all five checks. |
| UserSettings.FourEmojiAreLongEnough | frontend/src/pages/User/UserSettings.jsx:40 | A new password of four emoji counts 8 code units and passes every check of the chain. |
| UserSettings.AcceptedPasswordScoresAtLeastOne | frontend/src/pages/User/UserSettings.jsx:40-104 | Every accepted new password scores at least 1. |
| UserSettings.ToggleVisibility | frontend/src/pages/User/UserSettings.jsx:85-90 | Flips only the named flag (an unset one becomes true). Every other flag is kept. |
| UserSettings.ToggleTwice | frontend/src/pages/User/UserSettings.jsx:85-90 | Toggling a known field twice restores the flags. |
| UserSettings.PasswordSettings.TogglePasswordVisibility | frontend/src/pages/User/UserSettings.jsx:85-90 | The flags become the toggled map and nothing else changes. |
| ShoppingCart.CartTotals | frontend/src/pages/User/ShoppingCart.jsx:58-61 | Shipping is 0 exactly above 100, else 9.99. Tax is 8% of the subtotal. The total is their sum. |
| ShoppingCart.TotalMonotoneBesideThreshold | frontend/src/pages/User/ShoppingCart.jsx:58-61 | On either side of the shipping threshold, a larger subtotal never costs less. |
| ShoppingCart.TotalDropsAtThreshold | frontend/src/pages/User/ShoppingCart.jsx:59 | Across it, it can: 100.00 costs more than 100.01. |
| ShoppingCart.CustomerCompleteIffTrimmed | frontend/src/pages/User/ShoppingCart.jsx:73-74 | The customer check holds exactly when all five fields are non-empty after trimming. |
| ShoppingCart.PaymentCompleteIffTrimmed | frontend/src/pages/User/ShoppingCart.jsx:86-87 | The payment check holds exactly when number, holder and bank are non-empty after trimming. The account type is not checked. |
| Strings.TrimEmptyIffBlank | frontend/src/pages/User/ShoppingCart.jsx:74 | A trimmed string is empty exactly when the string is all whitespace. |
| ShoppingCart.PaymentMethodText | frontend/src/pages/User/ShoppingCart.jsx:106 | The text is the account type, " account ending in ", then the number's last four characters (all of it when shorter). |
| ShoppingCart.BuildRequest | frontend/src/pages/User/ShoppingCart.jsx:102-116 | The request carries the cart, the customer, the payment text with type and bank, and the page's totals. |
| ShoppingCart.RequestPassesPresenceChecks | frontend/src/pages/User/ShoppingCart.jsx:102-120 | For a signed-in user, the backend's verdict on a page-built request is "cart is empty" exactly for an empty cart, otherwise its stock check. It is never a missing-information or authentication failure. |
| ShoppingCart.NoLineFailureIsCartEmpty | backend/controllers/orderController.js:42-60 | The stock check only reports a missing product or short stock. |
| ShoppingCart.Checkout.constructor | frontend/src/pages/User/ShoppingCart.jsx:37-55 | The dialog starts closed on review, with no order info and blank forms (account type "checking"). |
| ShoppingCart.Checkout.HandleCheckout | frontend/src/pages/User/ShoppingCart.jsx:63-66 | Opens the dialog on the review step. |
| ShoppingCart.Checkout.ProceedToDetails | frontend/src/pages/User/ShoppingCart.jsx:68-70 | Moves to the details step. |
| ShoppingCart.Checkout.ProceedToPayment | frontend/src/pages/User/ShoppingCart.jsx:72-83 | Moves to payment exactly when every customer field is filled in. Otherwise it alerts and keeps the step. |
| ShoppingCart.Checkout.HandlePayment | frontend/src/pages/User/ShoppingCart.jsx:85-120 | With the payment fields filled in, enters processing and yields the request to send. Otherwise it alerts and changes nothing. |
| ShoppingCart.FailureAlert | frontend/src/pages/User/ShoppingCart.jsx:135-140 | The alert is "Payment processing failed: ", the reason, then ". Please try again.". The reason is the backend's message, or "Failed to create order" for a refusal without one, so a refusal always names a reason. |
| ShoppingCart.Checkout.FinishPayment | frontend/src/pages/User/ShoppingCart.jsx:122-143 | A created order moves to success and records number, id and total. Any failure alerts and returns to payment with the order info kept. Processing ends either way. |
| ShoppingCart.Checkout.HandleOrderComplete | frontend/src/pages/User/ShoppingCart.jsx:146-152 | Empties the cart, closes the dialog, resets to review and forgets the order. |
| ShoppingCart.Checkout.CloseModal | frontend/src/pages/User/ShoppingCart.jsx:154-158 | Closes the dialog, resets to review and forgets the order. The cart is kept. |
| ShoppingCart.Checkout.GoBack | frontend/src/pages/User/ShoppingCart.jsx:160-163 | Details goes back to review and payment to details. Any other step stays. |
| ManageUsers.FilteredUsers | frontend/src/pages/Admin/ManageUsers.jsx:153-158 | The filtered list is never longer than the list. |
| ManageUsers.FilteredUsersCorrect | frontend/src/pages/Admin/ManageUsers.jsx:153-158 | The filter keeps exactly the users whose name or e-mail contains the term case-insensitively and whose role passes, in their original order, each as many times as the list holds it. |
| ManageUsers.FilteredUsersMultiplicity | frontend/src/pages/Admin/ManageUsers.jsx:153-158 | Each matching user is kept as many times as the list holds it, and no other user is kept. |
| ManageUsers.EmptySearchShowsAll | frontend/src/pages/Admin/ManageUsers.jsx:153-158 | An empty term with the filter at "all" shows every user. |
| Strings.ContainsIffOccurs | frontend/src/pages/Admin/ManageUsers.jsx:154-155 | `includes` holds exactly when the pattern occurs at some offset. |
| ManageUsers.ClassifyPath | frontend/src/pages/Admin/ManageUsers.jsx:97-125 | The add modal exactly for the add path. Every id modal needs a truthy id. Each other modal opens exactly when its suffix is present, the id is truthy and no earlier suffix in the chain (edit, view, delete, change-role) matched. No modal exactly when the path is not the add path and either the id is falsy or no suffix matches. |
| ManageUsers.FirstWithId | frontend/src/pages/Admin/ManageUsers.jsx:107 | The position of the first user with the id, or none when no user has it. |
| ManageUsers.FindUser | frontend/src/pages/Admin/ManageUsers.jsx:107 | The first user in the list with that id, as `find` returns it. None is found exactly when no user has the id. |
| ManageUsers.CurrentModal | frontend/src/pages/Admin/ManageUsers.jsx:97-125 | The modal's kind is the path's classification. Add and none carry no user. An id modal's user is what `find` returns for the route's id: the first user with that id, or none. |
| ManageUsers.ModalRouteRoundTrip | frontend/src/pages/Admin/ManageUsers.jsx:161-182 | Classifying the path the builder produces for a kind and a positive id gives that kind back. The add path gives add even without an id. |
| ManageUsers.EditRouteClassified | frontend/src/pages/Admin/ManageUsers.jsx:167-168 | The edit path with a positive id opens the edit modal. |
| ManageUsers.ViewRouteClassified | frontend/src/pages/Admin/ManageUsers.jsx:170-171 | The view path opens the view modal; it does not contain "/edit". |
| ManageUsers.DeleteRouteClassified | frontend/src/pages/Admin/ManageUsers.jsx:173-174 | The delete path opens the delete modal; it contains neither earlier suffix. |
| ManageUsers.ChangeRoleRouteClassified | frontend/src/pages/Admin/ManageUsers.jsx:176-177 | The change-role path opens its modal; it contains none of the three earlier suffixes. |
| ManageUsers.AddRouteClassified | frontend/src/pages/Admin/ManageUsers.jsx:164-165 | The add path opens the add modal whatever the id parameter. |
| ManageUsers.ListRouteClassified | frontend/src/pages/Admin/ManageUsers.jsx:179-180 | The bare list path opens no modal. |
| ManageUsers.NoModalWithoutSuffix | frontend/src/pages/Admin/ManageUsers.jsx:104-124 | A path without any of the four suffixes, other than the add path, opens no modal. |
| ManageUsers.MaxId | frontend/src/pages/Admin/ManageUsers.jsx:191 | The maximum is an id of the list and no id exceeds it. |
| ManageUsers.AddUser | frontend/src/pages/Admin/ManageUsers.jsx:189-197 | The old list, then one new user whose id is the largest existing id plus one (so above every existing one), the form's fields, today's join date and zero orders and spending. None exactly for an empty list. |
| ManageUsers.AddUserKeepsIdsUnique | frontend/src/pages/Admin/ManageUsers.jsx:189-197 | Adding to a non-empty list with unique ids keeps them unique. |
| ManageUsers.EditUser | frontend/src/pages/Admin/ManageUsers.jsx:201-204 | The users with the selected id are replaced wholesale by the form. All others stay, in place. |
| ManageUsers.DeleteUser | frontend/src/pages/Admin/ManageUsers.jsx:208-209 | The list never grows. |
| ManageUsers.DeleteUserCorrect | frontend/src/pages/Admin/ManageUsers.jsx:208-209 | Exactly the users with the selected id are removed. The rest keep their order, and the length drops by their count. |
| ManageUsers.ChangeRole | frontend/src/pages/Admin/ManageUsers.jsx:213-216 | Only the role of the selected users changes. |
| ManageUsers.NextStatus | frontend/src/pages/Admin/ManageUsers.jsx:222 | The result is "active" or "inactive", and "inactive" exactly for an active user. |
| ManageUsers.ToggleStatus | frontend/src/pages/Admin/ManageUsers.jsx:220-224 | Only the status of the clicked user's id changes, to its next status. |
| ManageUsers.ToggleTwice | frontend/src/pages/Admin/ManageUsers.jsx:220-224 | Toggling twice restores a list whose statuses are all active or inactive. |
| Dashboard.AmountFields | frontend/src/pages/Admin/Dashboard.jsx:129 | The six amount fields are searched. |
| Dashboard.FirstPositive | frontend/src/pages/Admin/Dashboard.jsx:131-137 | Nothing is found exactly when no field is positive. A found amount is positive. |
| Dashboard.FirstPositiveIsFirst | frontend/src/pages/Admin/Dashboard.jsx:131-137 | The found amount is the one at the first positive position. |
| Dashboard.OrderRevenue | frontend/src/pages/Admin/Dashboard.jsx:128-146 | The first positive amount field. Failing that, the lines' price × quantity sum when there are lines, else 0. |
| Dashboard.ItemQuantity | frontend/src/pages/Admin/Dashboard.jsx:143 | A missing or zero quantity counts as 1. A present one is kept. |
| Dashboard.ItemsTotalNonNegative | frontend/src/pages/Admin/Dashboard.jsx:141-145 | With non-negative prices and quantities, the line sum is non-negative. |
| Dashboard.RevenueOf | frontend/src/pages/Admin/Dashboard.jsx:128-146 | The field search with its early exit, then the line sum, computes the order's revenue. |
| Dashboard.ComputeOrderStats | frontend/src/pages/Admin/Dashboard.jsx:113-169 | One pass yields the order count, the sum of per-order revenues and the status tally of the whole list. |
| Dashboard.StatsStep | frontend/src/pages/Admin/Dashboard.jsx:126-169 | One more order adds its revenue and counts its status. |
| Dashboard.StatusKey | frontend/src/pages/Admin/Dashboard.jsx:151 | A missing status is read as "pending". |
| Dashboard.MissingStatusIsPending | frontend/src/pages/Admin/Dashboard.jsx:151-155 | An order without a status is counted as pending. |
| Dashboard.CountStatusCounted | frontend/src/pages/Admin/Dashboard.jsx:152-168 | A status of the four groups adds exactly one to the counters together. Any other adds nothing. |
| Dashboard.TallyBounded | frontend/src/pages/Admin/Dashboard.jsx:151-168 | The four counters sum to at most the order count, and to exactly it when every status is counted. |
| Dashboard.NewestFirst | frontend/src/pages/Admin/Dashboard.jsx:180-184 | A permutation of the orders, sorted by date, newest first. |
| Dashboard.RecentOrders | frontend/src/pages/Admin/Dashboard.jsx:179-185 | Exactly the first ten entries (all when fewer) of the newest-first order, so no order appears more often than in the list. No order left out is newer than one shown. |
| Dashboard.RowOf | frontend/src/pages/Admin/Dashboard.jsx:208-215 | A row shows the order number, or the numeric id when there is none. The customer is the first non-empty of first name, username and customer name, else "Unknown Customer". The amount is the order's revenue and the status is its own or "pending". The time is the time-ago text of the first date field present. |
| Dashboard.RecentRows | frontend/src/pages/Admin/Dashboard.jsx:186-216 | One row per recent order, in order, each the row of that order as described for `Dashboard.RowOf`. |
| Dashboard.CountActive | frontend/src/pages/Admin/Dashboard.jsx:270 | The number of positions in the list that hold an active product. |
| Dashboard.CountLowStock | frontend/src/pages/Admin/Dashboard.jsx:271 | The number of positions in the list that hold a product with stock from 1 to 10. |
| Dashboard.CountOutOfStock | frontend/src/pages/Admin/Dashboard.jsx:272 | The number of positions in the list that hold a product with stock 0. |
| Dashboard.StockBucketsDisjoint | frontend/src/pages/Admin/Dashboard.jsx:271-272 | No product is both low on stock and out of stock. |
| Dashboard.StockBucketsBounded | frontend/src/pages/Admin/Dashboard.jsx:269-272 | Low-stock and out-of-stock counts together are at most the product count. |
| Dashboard.FormatTimeAgo | frontend/src/pages/Admin/Dashboard.jsx:324-341 | Each label holds exactly on its interval of elapsed time. The minute, hour and day counts are the whole units elapsed, rounded down, inside each label's range. A missing date is "Unknown time". |
| Dashboard.TimeAgoText | frontend/src/pages/Admin/Dashboard.jsx:324-340 | The fixed labels for unknown, just now and yesterday. A minutes, hours or days label is the count in decimal, then "m ago", "h ago" or " days ago", and the count reads back. |
| Dashboard.StatusColor | frontend/src/pages/Admin/Dashboard.jsx:343-362 | One of the five badge colours. Gray exactly for a missing status or one whose lower-case form is none of the nine coloured statuses. |
| Dashboard.StatusColorIgnoresCase | frontend/src/pages/Admin/Dashboard.jsx:344 | A status and its lower-case form get the same colour. |
| Dashboard.ColorMatchesTally | frontend/src/pages/Admin/Dashboard.jsx:343-362 | The badge colour agrees with the counter the status feeds. |
| Dashboard.ColoredButUncounted | frontend/src/pages/Admin/Dashboard.jsx:343-362 | "closed" and "open" get colours but are counted nowhere. |
| Login.Submit | frontend/src/assets/Login.jsx:25-40 | Success exactly when both stored fields equal the typed ones. "Invalid email" exactly on an e-mail mismatch, whatever the password. "Invalid password" only when the e-mail matches. The last branch is never taken. |
| Login.EmailError | frontend/src/assets/Login.jsx:87-93 | No e-mail error exactly for an address the pattern accepts. "Email is required" for an empty field, "Invalid email address" for a non-empty one the pattern rejects. |
| Login.PasswordError | frontend/src/assets/Login.jsx:114-120 | No password error exactly for at least 6 UTF-16 code units. "Password is required" for an empty field, "Password must be at least 6 characters" for a shorter non-empty one. |
| Login.AlertText | frontend/src/assets/Login.jsx:29-36 | "successfuly login" exactly for a login. No alert exactly when there is no stored user. |
| Login.AlertsDistinct | frontend/src/assets/Login.jsx:25-40 | Different outcomes show different alerts, and a submission never alerts "failed to login". |
| Login.SubmitForm | frontend/src/assets/Login.jsx:77-120 | Once the browser's own checks let the submit event through, the form submits exactly for an address the pattern accepts and a long enough password. It then decides as `onSubmit`, and a successful login means the stored address fits the pattern. |
| Login.EmailMatcherCorrect | frontend/src/assets/Login.jsx:90 | The matcher accepts exactly the strings of the pattern. |
| Login.EmailMatcherSound | frontend/src/assets/Login.jsx:90 | Every accepted string fits the pattern. |
| Login.EmailMatcherComplete | frontend/src/assets/Login.jsx:90 | Every string of the pattern is accepted. |
| Login.LocalHasNoAt | frontend/src/assets/Login.jsx:90 | The local part's characters exclude '@'. |
| Login.AcceptedEmailShape | frontend/src/assets/Login.jsx:90 | An accepted address has exactly one '@', a non-empty local part of allowed characters, and a final '.' followed by two or more letters. |
| Profile.TextOr | frontend/src/pages/User/Profile.jsx:59-65 | A truthy field as stored, else "". |
| Profile.AddressOr | frontend/src/pages/User/Profile.jsx:66-72 | A truthy address as stored, else the empty address. |
| Profile.Normalize | frontend/src/pages/User/Profile.jsx:58-74 | The form has exactly the nine keys: each text field as stored or "", and the address or the empty address. |
| Profile.ImageOf | frontend/src/pages/User/Profile.jsx:77-79 | The stored picture when it is a non-empty string, and the default picture otherwise. Never empty. |
| Profile.NormalizedFromObjectAddress | frontend/src/pages/User/Profile.jsx:58-74 | A stored user with text fields and an object or empty address loads into a well-formed form. |
| Profile.Spread | frontend/src/pages/User/Profile.jsx:90 | Spreading the old address: an object gives its fields, a string its characters by index, a missing value nothing. |
| Profile.CharEntries | frontend/src/pages/User/Profile.jsx:90 | One entry per character, named by its index in decimal, and nothing else. |
| Profile.Entries | frontend/src/pages/User/Profile.jsx:90 | With an injective naming, one entry per character under its index's name, and nothing else. |
| Profile.EntriesStep | frontend/src/pages/User/Profile.jsx:90 | Adding the last character's entry extends the entries of the prefix. |
| Profile.IndexNamesInjective | frontend/src/pages/User/Profile.jsx:90 | Distinct indices get distinct decimal names. |
| Profile.AddressField | frontend/src/pages/User/Profile.jsx:86 | The second dot-separated segment: it starts right after "address.", holds no dot, and ends at the next dot or at the end of the name. |
| Profile.InputChange | frontend/src/pages/User/Profile.jsx:83-100 | A dotted address name sets that address field over the old address. Any other name sets that top-level field. All other fields stay. |
| Profile.AddressEditIsLocal | frontend/src/pages/User/Profile.jsx:85-93 | Editing an object address changes only the named field of it. |
| Profile.InputChangeKeepsWellFormed | frontend/src/pages/User/Profile.jsx:83-100 | Typing into a text field or an address field keeps the form well formed. |
| Profile.Saved | frontend/src/pages/User/Profile.jsx:131-135 | The user overlaid by the form, then by the picture. Later sources win key by key. |
| Profile.SaveThenCancel | frontend/src/pages/User/Profile.jsx:129-170 | After a save, cancel rebuilds exactly the saved form, and the saved picture unless it was empty. |
| Profile.CheckUpload | frontend/src/pages/User/Profile.jsx:104-115 | Accepted exactly for an image type of at most 5 MiB (5 MiB itself included). The type is checked before the size. |
| Profile.ProfilePage.constructor | frontend/src/pages/User/Profile.jsx:29-81 | With a stored user, the form and picture come from it. Without one, the empty form and the default picture. Editing is off. |
| Profile.ProfilePage.StartEditing | frontend/src/pages/User/Profile.jsx:216 | Enters editing mode. |
| Profile.ProfilePage.HandleInputChange | frontend/src/pages/User/Profile.jsx:83-100 | The form becomes the changed form. |
| Profile.ProfilePage.HandleImageUpload | frontend/src/pages/User/Profile.jsx:102-123 | An accepted file replaces the picture. A rejected one alerts its reason and keeps the picture. |
| Profile.ProfilePage.HandleSave | frontend/src/pages/User/Profile.jsx:129-139 | The merged record becomes the user and is stored under "user". Editing ends. |
| Profile.ProfilePage.HandleCancel | frontend/src/pages/User/Profile.jsx:141-170 | With a user, form and picture are rebuilt from it; without one they stay. Editing ends. |

## Left out

- The Sequelize transaction object, its isolation and the concurrent check-then-decrement race: the store is a single in-memory value and a request is all-or-nothing.
- The 500 path of `createOrder` and `getUserOrders` (an exception from the database): there is no database to fail.
- `OrderController.OrderStore.CreateOrder`: the response's `createdAt` is the request's clock, where Sequelize sets the row's own timestamp.
- The order model's other columns (status and its default): the order model is not part of this model.
- Network, JSX rendering, `console` logging, `alert` (returned as a value), `navigate` and `window.history.back()`.
- `jwtDecode`, `JSON.parse` and `JSON.stringify` are foreign code. They are parameters, and the decoder answers in three cases (throws, no `exp`, a numeric `exp`).
- Timers: the five-minute interval runs its body as `AuthContext.Session.Tick` on demand, and the simulated delays of the cart and settings pages are not modelled. The settings page's catch branch cannot be reached because the delay never rejects.
- `ShoppingCart.Checkout.HandlePayment`: the `async` handler is split at its `await` into this method and `FinishPayment`; the backend's answer is an input.
- The dashboard's this-month figures, the `Promise.all` fan-out, the user-count estimate and the shape adaptation of the API answers (`response.orders`, `data`, bare arrays): they depend on the calendar clock and the network.
- `Dashboard.RevenueOf`: `parseFloat` of string-typed amounts, `NaN` and string quantities (`parseInt`) are not modelled; amounts are optional reals.
- `Dashboard.RecentRows`: the row's `userId` column is not modelled.
- `Dashboard.FormatTimeAgo`: a date older than a week is shown by `toLocaleDateString`; the model returns the timestamp.
- `Dashboard.NewestFirst`: `orders.sort` sorts the fetched array in place; the model sorts a copy, so aliasing of that array is not captured. The statistics are computed before the sort and do not see it.
- `ShoppingCart.PaymentMethodText`: `slice(-4)` takes the last four UTF-16 code units, and the model takes the last four characters (`Strings.LastN`). They differ when the account number has characters outside the Basic Multilingual Plane, where JavaScript can split a surrogate pair, which a Dafny string cannot hold.
- The backend's `ORDER BY createdAt DESC` leaves the order of equal timestamps to the database. The model keeps table order, the same stable sort the dashboard uses.
- `Login.SubmitForm`: the field is `type="email"` in a form that validates natively. The browser strips leading and trailing whitespace from the value and rejects addresses its own e-mail grammar refuses (for example `a@b..co`, which the pattern accepts) before the submit event runs. Neither behaviour is modelled: the model's "submitted" means the pattern and length rules pass.
- `Profile.Spread`: spreading a string address keys its entries by UTF-16 code-unit index, and the model keys them by character (`Profile.CharEntries`). A character outside the Basic Multilingual Plane gives two entries in JavaScript (one per surrogate half) and one in the model.
- `Strings.Lower` lower-cases ASCII letters only, and `Strings.Trim` removes ASCII whitespace and the no-break space only.
- `ManageUsers.AddUser`: on an empty list `Math.max()` is `-Infinity` and the new id is not an integer; the model answers `None`.
- `ManageUsers`: the effect that tracks the selected user, the role and status badge colours, and `closeModal` navigation; the handlers take the selected id as a parameter.
- `Login.Submit`: with no stored "User" record the page throws a `TypeError`; the model answers `NoStoredUser`.
- `Profile`: JSON values other than strings and objects of strings (numbers, booleans, nested objects, arrays) in stored records; a `profileImage` that is not a string is read as absent.
- `Profile.ProfilePage.HandleImageUpload`: the `FileReader` runs asynchronously; its data URL is a parameter.
- `AuthContext`: `refreshToken` (it does nothing) and `useAuth`'s error outside the provider.

## Findings

| source | as written | input that shows it | evidently intended | confidence | as-written member | corrected member |
|---|---|---|---|---|---|---|
| backend/controllers/orderController.js:42-60 | every cart line is checked against the stock before the order, then all lines are decremented | product 1 with stock 5 and a cart of two lines for product 1 with quantity 3 each: both lines pass, and the stock ends at -1 | a cart is accepted only when the stock covers the total quantity per product, so stock never goes negative | not executed | OrderController.DuplicateLinesOverdraw | OrderController.OrderStore.CreateOrderGuarded |
