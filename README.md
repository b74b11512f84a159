# Trendies notification and event layer, in Dafny

This project models the notification and event layer of the Trendies
marketplace admin demo and proves properties of that model. The layer has
these parts:

- **In-memory store** (`MockData`). It holds users, products, orders,
  return requests, email templates and notifications, plus a counter.
  `addNotification` prepends a record whose id is
  `notif-<now>-<counter>-<random>`. The find-then-assign updates change
  the first matching record and nothing else.
- **Email service** (`EmailService`). It renders a template by replacing
  each declared `{{variable}}` with its value, or with `[variable]` when
  the value is missing or empty. It then composes a Brevo request. The
  HTTP outcome is a parameter (`Delivery`).
- **Event dispatcher** (`NotificationService`). It turns each of the
  eight event kinds into zero, one or two notifications, and sends an
  email for three of them. It also keeps a subscriber list.
- **Client context** (`NotificationContext`). It keeps its own copy of the
  notification list, with the unread count, mark-as-read, the latest
  *n*, and a local add.
- **Logs page** (`NotificationLogs`): filters, pagination and statistics.
- **Navbar** (`Navbar`): relative times, icons, the unread badge and the
  dropdown.
- **Status management page** (`StatusPage`). It produces the event
  sequence for each status or badge change and for the random
  simulation. The page runs in the browser and `triggerEvent` is a
  server action, so each handler takes two stores: the browser's copy of
  the mock data, which receives the direct update, and the server's copy,
  which receives the events' notices.
- **Simulator endpoint** (`SimulateRoute`). `POST` runs one of four
  interactions on the store.
- **Table card** (`AdminCardLarge`). It builds columns from the union of
  the rows' keys, derives labels from camelCase keys, and falls back to
  `'-'` in cells.

Each part that changes state in place has a class with `modifies`
clauses:

- `MockData.Store`
- `NotificationService.NotificationHub`
- `NotificationContext.NotificationProvider`
- `StatusPage.StatusManagement`
- the simulator methods on a `Store`

Every such method is tied by its `ensures` to a pure function on a value
(`StoreState`). The properties are proved as lemmas about those
functions.

The model keeps three behaviours of the code exactly as written:

- **Seller approval reads the wrong fields.** `seller_account_approved` is
  dispatched by the status page with `{ sellerId }` only. The handler
  reads `userId`, `userName` and `userType`. The notification is
  therefore addressed to nobody, its message reads
  `undefined (undefined) account has been approved and is now active`,
  and the email returns `false` because no seller is found.
- **Return requests look up the product by the order's id.**
  `return_request_initiated` looks up the product by `order.id`. On the
  seed data no product has an order's id, so the handler stays silent.
- **Client-side ids can collide.** The context's local `addNotification`
  builds ids as `notif-<Date.now()>`, so two adds in the same millisecond
  collide. Such an id can never equal one made by the store.

Also as in the code:

- The simulator sets `emailSent` whenever the send call returns, whatever
  boolean it returns.
- Where the code throws, the model returns `None`, and `POST` then answers
  500. This happens, for example, when a new order is simulated with no
  users or no products.

Clocks and randomness are parameters:

- `Stamp` is the time, creation date and random suffix of one new
  notification.
- `Stamps` gives the stamps for the two notifications a handler may add.
- `Draws` gives every random draw and date of one simulator call.

An event payload is a `map<string, string>`. A missing key is
`undefined`, which a template literal renders as `"undefined"` (`Show`).

## Model

| member | source | states |
|---|---|---|
| MockData.UpdateFirst | src/lib/mockData.ts:196-223 | the shared find-then-assign: the first element satisfying the test is transformed; UpdateFirstEffect states that only it changes |
| MockData.MakeId | src/lib/mockData.ts:182-184 | `generateUniqueId`; MakeIdParts, ParseMakeId and MakeIdDistinct state its parts and uniqueness |
| MockData.AddNotificationTo | src/lib/mockData.ts:186-194 | `addNotification` on values; AddNotificationEffect and AddNotificationValid state its effect and the invariant it keeps |
| MockData.MarkRead | src/lib/mockData.ts:196-201 | `markNotificationAsRead` on values; MarkReadEffect, MarkReadIdempotent and MarkReadValid state its effect |
| MockData.ProductsWithStatus | src/lib/mockData.ts:203-209 | `updateProductStatus` on values; UpdateProductStatusEffect states its effect |
| MockData.UsersWithStatus | src/lib/mockData.ts:211-216 | `updateUserStatus` on values; UpdateUserStatusEffect states its effect |
| MockData.UsersWithBadge | src/lib/mockData.ts:218-223 | `updateUserBadgeLevel` on values; UpdateUserBadgeLevelEffect states its effect |
| MockData.FindFirst | src/lib/mockData.ts:197 | `find`: the index it returns satisfies the predicate and no earlier element does; `None` exactly when no element does |
| MockData.UpdateFirstEffect | src/lib/mockData.ts:196-223 | a find-then-assign changes the first match only and leaves every other element as it was |
| MockData.UpdateFirstIdempotent | src/lib/mockData.ts:196-223 | repeating a find-then-assign with an idempotent update changes nothing more |
| MockData.MakeIdParts | src/lib/mockData.ts:182-184 | a generated id is `notif-`, the time in decimal, `-`, the counter in decimal, `-`, the suffix, and splitting at the dashes recovers each part |
| MockData.ParseMakeId | src/lib/mockData.ts:182-184 | the counter can be read back from any generated id |
| MockData.MakeIdDistinct | src/lib/mockData.ts:182-184 | ids generated with different counter values differ, whatever their times and suffixes |
| MockData.MakeIdShape | src/lib/mockData.ts:182-184 | an id has the documented shape exactly when its random suffix is nonempty lower-case alphanumeric |
| MockData.AddNotificationEffect | src/lib/mockData.ts:186-194 | adding prepends one record carrying the input's fields, the generated id and the creation date, advances the counter by one and changes nothing else |
| MockData.AddNotificationValid | src/lib/mockData.ts:180-194 | adding keeps notification ids unique and every counter in an id below the store's counter |
| MockData.AddAllIds | src/lib/mockData.ts:180-194 | the k-th of several adds gets the counter value start+k in its id |
| MockData.AddAllDistinct | src/lib/mockData.ts:180-194 | several adds in a row produce pairwise distinct ids |
| MockData.MarkReadEffect | src/lib/mockData.ts:196-201 | marking as read sets `isRead` on the first notification with that id only; no id changes, no read flag is cleared, and an unknown id changes nothing |
| MockData.MarkReadIdempotent | src/lib/mockData.ts:196-201 | marking the same id twice is the same as once |
| MockData.MarkReadValid | src/lib/mockData.ts:196-201 | marking as read keeps the store invariant |
| MockData.UpdateProductStatusEffect | src/lib/mockData.ts:203-209 | the first product with the id gets the new status and update time; every other product is unchanged; an unknown id changes nothing |
| MockData.UpdateUserStatusEffect | src/lib/mockData.ts:211-216 | the first user with the id gets the new status; every other user is unchanged; an unknown id changes nothing |
| MockData.UpdateUserBadgeLevelEffect | src/lib/mockData.ts:218-223 | the first user with the id gets the new badge, possibly none; every other user is unchanged |
| MockData.ShortIdHasNoCounter | src/lib/mockData.ts:147-178 | a seed id such as `notif-1` carries no counter |
| MockData.SeedValid | src/lib/mockData.ts:147-180 | the seed notifications satisfy the store invariant with the counter at 0 |
| MockData.Store.constructor | src/lib/mockData.ts:4-180 | the store starts from the seed data, which satisfies the invariant |
| MockData.Store.GenerateUniqueId | src/lib/mockData.ts:182-184 | returns the id for the current counter and advances the counter by one |
| MockData.Store.AddNotification | src/lib/mockData.ts:186-194 | the new store and the returned record are those of the value-level add, and the invariant is kept |
| MockData.Store.MarkNotificationAsRead | src/lib/mockData.ts:196-201 | only the notification list changes, as the value-level mark-as-read says, and the invariant is kept |
| MockData.Store.UpdateProductStatus | src/lib/mockData.ts:203-209 | only the products change, as the value-level update says |
| MockData.Store.UpdateUserStatus | src/lib/mockData.ts:211-216 | only the users change, as the value-level update says |
| MockData.Store.UpdateUserBadgeLevel | src/lib/mockData.ts:218-223 | only the users change, as the value-level update says |
| EmailService.ReplaceAll | src/lib/emailService.ts:71-72 | a global replace of a literal pattern; ReplaceAllAbsent and ReplaceAllLeftmost state its behaviour |
| EmailService.Render | src/lib/emailService.ts:66-88 | the declaration-order substitution; RenderAppend, RenderNoPlaceholders, RenderMissingValue, RenderChained and RenderUndeclared state its behaviour |
| EmailService.SendSellerApprovalEmail | src/lib/emailService.ts:90-117 | `sendSellerApprovalEmail`; SellerApprovalEmailBehaviour states its outcomes |
| EmailService.SendOrderConfirmationEmail | src/lib/emailService.ts:119-151 | `sendOrderConfirmationEmail`; OrderEmailRecipient states its outcomes |
| EmailService.SendReturnAcceptedEmail | src/lib/emailService.ts:153-181 | `sendReturnAcceptedEmail`; ReturnEmailRecipient states its outcomes |
| EmailService.SendBrevoEmail | src/lib/emailService.ts:27-64 | reports success exactly when there is no API key (simulated send) or a 2xx response whose JSON body parses; a non-2xx response gives `false`, and so does a throw from `fetch`, `json()` or `text()`, including a 2xx response whose body is empty or not JSON |
| EmailService.ValueFor | src/lib/emailService.ts:70 | the substituted value is never empty: a missing or empty value becomes `[variable]` |
| EmailService.ReplaceAllAbsent | src/lib/emailService.ts:72 | a global replace leaves text without the placeholder unchanged |
| EmailService.ReplaceAllLeftmost | src/lib/emailService.ts:72 | a global replace substitutes the leftmost occurrence and continues after it, never re-scanning the inserted value |
| EmailService.RenderAppend | src/lib/emailService.ts:66-76 | rendering with one more declared variable applies one more global replace to the previous result |
| EmailService.RenderNoPlaceholders | src/lib/emailService.ts:66-76 | content without `{{` renders unchanged |
| EmailService.RenderMissingValue | src/lib/emailService.ts:70-72 | a placeholder whose value is missing or empty renders as `[variable]` |
| EmailService.RenderChained | src/lib/emailService.ts:69-73 | variables are replaced in declaration order, so a value that is a later variable's placeholder is itself replaced |
| EmailService.PlaceholderNotInside | src/lib/emailService.ts:71 | one brace-free variable's placeholder never occurs inside another's |
| EmailService.RenderUndeclared | src/lib/emailService.ts:66-76 | a placeholder for an undeclared variable is left in the output |
| EmailService.RenderTemplate | src/lib/emailService.ts:66-76 | the loop's result is the declaration-order fold of replacements over the HTML content |
| EmailService.RenderSubject | src/lib/emailService.ts:78-88 | the loop's result is the same fold over the subject |
| EmailService.BuyerName | src/lib/emailService.ts:130 | `split('@')[0]`: the longest prefix of the email without `@`, ending just before the first `@` |
| EmailService.WithField | src/lib/emailService.ts:129-135 | a variables object gets the key only when the value is defined, and keeps its other entries |
| EmailService.SellerApprovalEmailBehaviour | src/lib/emailService.ts:90-117 | no email and `false` without the seller or the template; otherwise an email to the seller from the Trendies sender, subject and body rendered with badge `Standard` for an absent badge, reporting the delivery outcome |
| EmailService.OrderEmailRecipient | src/lib/emailService.ts:119-151 | the order confirmation gives `false` without its template; with the template a missing buyer address or amount throws; otherwise the sender is Trendies, the email goes to `Contact(buyerName, buyerEmail)` with `buyerName` taken from the address, subject and body are the template rendered over the variables, each optional field is a variable exactly when it is defined, and the result is the delivery outcome |
| EmailService.ReturnEmailRecipient | src/lib/emailService.ts:153-181 | the return-accepted email gives `false` without its template; with the template a missing buyer address throws; otherwise the same sender, recipient, rendering, variables and delivery outcome as the confirmation |
| NotificationService.Notify | src/lib/notificationService.ts:56-270 | the handlers' consecutive `addNotification` calls; NotifyEffect states their effect |
| NotificationService.NoticesFor | src/lib/notificationService.ts:28-53 | the notices of each event kind; ListingAndOrderCounts, ProductLiveCount, ReturnInitiatedCount, SellerApprovedAlways, ConfirmationsAndReturns and StatusUpdatedOne state them per kind |
| NotificationService.EmailFor | src/lib/notificationService.ts:81-240 | the email each handler attempts; EmailOnlyForThree states which kinds send one |
| NotificationService.Process | src/lib/notificationService.ts:25-54 | the eight-way dispatch on values; ProcessEffect states its effect |
| NotificationService.RemoveFirst | src/lib/notificationService.ts:10-15 | unsubscribing an unknown callback changes nothing; a known one removes exactly one entry |
| NotificationService.RemoveFirstMultiset | src/lib/notificationService.ts:10-15 | unsubscribing removes one occurrence of the callback and keeps every other subscriber |
| NotificationService.RemoveFirstSplit | src/lib/notificationService.ts:11-13 | `indexOf` and then `splice` remove the first occurrence and keep the order of the rest |
| NotificationService.SubscribeThenUnsubscribe | src/lib/notificationService.ts:8-16 | subscribing a new callback and then calling the returned unsubscribe restores the list |
| NotificationService.UnsubscribeTwice | src/lib/notificationService.ts:10-15 | calling unsubscribe a second time for a callback subscribed once changes nothing |
| NotificationService.Get | src/lib/notificationService.ts:57 | reading a payload field gives a value exactly when the key is present |
| NotificationService.NotifyEffect | src/lib/notificationService.ts:56-270 | a handler's k notices end up newest-first in front of the store, with consecutive counter values in their ids; the invariant is kept |
| NotificationService.ProcessEffect | src/lib/notificationService.ts:25-54 | dispatching an event adds at most two notifications in front, changes nothing else and keeps the invariant |
| NotificationService.ListingAndOrderCounts | src/lib/notificationService.ts:56-142 | a new listing or order creates two notices exactly when both looked-up records exist, and none otherwise; the first goes to the seller, the second to the admin or the buyer |
| NotificationService.ProductLiveCount | src/lib/notificationService.ts:102-116 | a product going live creates one success notice for the seller exactly when the product exists |
| NotificationService.ReturnInitiatedCount | src/lib/notificationService.ts:144-168 | a return request creates two notices exactly when the order exists and a product has the order's id; the first goes to the order's seller, the second to the buyer |
| NotificationService.ReturnInitiatedSilentOnSeed | src/lib/notificationService.ts:146-149 | on the seed data a return request creates no notice at all |
| NotificationService.SellerApprovedAlways | src/lib/notificationService.ts:81-100 | an approval always creates one success notice for the payload's `userId` and sends the approval email for that `userId` |
| NotificationService.SellerApprovedWithSellerIdOnly | src/lib/notificationService.ts:81-100 | with the status page's `{ sellerId }` payload the notice is addressed to nobody, reads `undefined (undefined) ...`, and the email returns `false` unsent |
| NotificationService.ConfirmationsAndReturns | src/lib/notificationService.ts:170-240 | a confirmation or a return acceptance creates one success notice for the order's buyer exactly when the order exists, and always attempts its email |
| NotificationService.StatusUpdatedOne | src/lib/notificationService.ts:242-270 | a status update always creates one info notice: to `admin` for a registration event, otherwise to `userId` with `<type> status changed from <old> to <new>` |
| NotificationService.EmailOnlyForThree | src/lib/notificationService.ts:25-54 | an email is attempted exactly for approval, order confirmation and return acceptance |
| NotificationService.AddNotices | src/lib/notificationService.ts:56-270 | the consecutive `addNotification` calls of a handler give the value-level result |
| NotificationService.HandleNewListingCreated | src/lib/notificationService.ts:56-79 | the store after the handler is the specified prepend of the listing notices |
| NotificationService.HandleSellerAccountApproved | src/lib/notificationService.ts:81-100 | returns the approval email's result for the payload's `userId` and prepends the approval notice |
| NotificationService.HandleProductMarkedLive | src/lib/notificationService.ts:102-116 | the store after the handler is the specified prepend of the live-product notices |
| NotificationService.HandleOrderPlaced | src/lib/notificationService.ts:118-142 | the store after the handler is the specified prepend of the order notices |
| NotificationService.HandleReturnRequestInitiated | src/lib/notificationService.ts:144-168 | the store after the handler is the specified prepend of the return notices |
| NotificationService.HandleOrderConfirmed | src/lib/notificationService.ts:170-205 | returns the confirmation email's result and prepends the confirmation notice |
| NotificationService.HandleReturnAccepted | src/lib/notificationService.ts:207-240 | returns the return email's result and prepends the acceptance notice |
| NotificationService.HandleStatusUpdated | src/lib/notificationService.ts:242-270 | the store after the handler is the specified prepend of the status notice |
| NotificationService.NotificationHub.constructor | src/lib/notificationService.ts:6 | the subscriber list starts empty |
| NotificationService.NotificationHub.Subscribe | src/lib/notificationService.ts:8-9 | appends the callback |
| NotificationService.NotificationHub.Unsubscribe | src/lib/notificationService.ts:10-15 | removes the callback's first occurrence |
| NotificationService.NotificationHub.Emit | src/lib/notificationService.ts:18-20 | calls every subscriber once, in subscription order, with the notification |
| NotificationService.NotificationHub.ProcessNotificationEvent | src/lib/notificationService.ts:25-54 | the store changes as the dispatch function says, the email is the one specified for the event, and no subscriber is notified or removed |
| NotificationContext.UnreadCount | src/contexts/NotificationContext.tsx:45 | the unread count; UnreadCountConcat, UnreadCountSingle and UnreadCountExtremes characterise it |
| NotificationContext.LatestNotifications | src/contexts/NotificationContext.tsx:56-58 | `slice(0, count)`; LatestIsPrefix states it for every count |
| NotificationContext.LocalRecord | src/contexts/NotificationContext.tsx:60-67 | the context's own record; LocalRecordAgreesWithStore relates it to the store's |
| NotificationContext.Unread | src/contexts/NotificationContext.tsx:45 | the unread notifications are unread members of the list |
| NotificationContext.UnreadCountConcat | src/contexts/NotificationContext.tsx:45 | the unread count of two lists joined is the sum of their counts |
| NotificationContext.UnreadCountSingle | src/contexts/NotificationContext.tsx:45 | one notification counts 1 exactly when it is unread |
| NotificationContext.UnreadCountExtremes | src/contexts/NotificationContext.tsx:45 | all unread gives the list's length; all read gives 0 |
| NotificationContext.MarkAllRead | src/contexts/NotificationContext.tsx:49-53 | the context's `map` marks every notification with the id, whatever its position |
| NotificationContext.MarkAllReadEffect | src/contexts/NotificationContext.tsx:47-54 | ids are kept, matching entries become read, others are unchanged; marking is idempotent and never raises the unread count |
| NotificationContext.MarkAllReadAgreesWithStore | src/contexts/NotificationContext.tsx:47-54 | with unique ids the context's mark-all and the store's mark-first agree |
| NotificationContext.LatestIsPrefix | src/contexts/NotificationContext.tsx:56-58 | `slice(0, count)` is the first `count` notifications, the whole list when `count` is larger, and drops from the end for a negative `count` |
| NotificationContext.LocalRecordAgreesWithStore | src/contexts/NotificationContext.tsx:60-67 | a local add builds the record the store would build from the same input and creation date, except that its id is `notif-<now>`, which never equals the store's id |
| NotificationContext.LocalIdsCollide | src/contexts/NotificationContext.tsx:63 | two local adds in the same millisecond break id uniqueness |
| NotificationContext.LocalIdNotStoreId | src/contexts/NotificationContext.tsx:63 | a local id never equals an id generated by the store |
| NotificationContext.NotificationProvider.constructor | src/contexts/NotificationContext.tsx:34 | the context starts from the store's notification list |
| NotificationContext.NotificationProvider.Receive | src/contexts/NotificationContext.tsx:38-40 | a pushed notification goes in front, and the unread count rises by one exactly when it is unread |
| NotificationContext.NotificationProvider.MarkAsRead | src/contexts/NotificationContext.tsx:47-54 | marks the store's first match and every match in the context, and never raises the unread count |
| NotificationContext.NotificationProvider.AddNotification | src/contexts/NotificationContext.tsx:60-67 | prepends the local record |
| NotificationLogs.Matches | src/app/admin/notifications/page.tsx:52-62 | the search, type and status tests; DefaultFiltersKeepAll, ClearedFilterMatchesNothing and StatusFilterSelects state them |
| NotificationLogs.Tally | src/app/admin/notifications/page.tsx:75-78 | the per-type `reduce`; TallySum and TallyKeys state its sum and keys |
| NotificationLogs.ResetFilters | src/app/admin/notifications/page.tsx:83-88 | reset clears the search, sets both filters to `all` and goes to page 1 |
| NotificationLogs.TypeColorsDistinct | src/app/admin/notifications/page.tsx:30-42 | each notification type has its own colour |
| NotificationLogs.Filtered | src/app/admin/notifications/page.tsx:51-64 | the filter keeps only matching notifications, keeps every matching one, and keeps their original order |
| NotificationLogs.FilteredMultiset | src/app/admin/notifications/page.tsx:51-64 | each matching notification is kept as many times as it occurs and every other one is dropped |
| NotificationLogs.DefaultFiltersKeepAll | src/app/admin/notifications/page.tsx:51-64 | an empty search with both filters `all` keeps every notification |
| NotificationLogs.ClearedFilterMatchesNothing | src/app/admin/notifications/page.tsx:57-60 | a cleared (null) type or status filter matches nothing |
| NotificationLogs.StatusFilterSelects | src/app/admin/notifications/page.tsx:58-60 | the `read` filter keeps exactly the read matches and `unread` exactly the unread ones |
| NotificationLogs.TotalPages | src/app/admin/notifications/page.tsx:66 | `ceil(n / 10)`: the pages hold all n items and the last page is nonempty |
| NotificationLogs.Page | src/app/admin/notifications/page.tsx:67-70 | a page shows at most ten notifications |
| NotificationLogs.PagesPrefix | src/app/admin/notifications/page.tsx:67-70 | pages 1..k together are the first 10k items, in order |
| NotificationLogs.PagesCoverAll | src/app/admin/notifications/page.tsx:66-70 | the pages up to the total cover the list exactly, and later pages are empty |
| NotificationLogs.ResetShowsFirstPage | src/app/admin/notifications/page.tsx:83-88 | after a reset the table shows the first ten notifications |
| NotificationLogs.StatsOf | src/app/admin/notifications/page.tsx:72-81 | the total is the list's length and the unread figure is the unread count |
| NotificationLogs.TypesIn | src/app/admin/notifications/page.tsx:75-78 | the types present are exactly the type names of the entries |
| NotificationLogs.BumpSum | src/app/admin/notifications/page.tsx:76 | one `acc[type] + 1` step raises the sum over the four types by one |
| NotificationLogs.TallySum | src/app/admin/notifications/page.tsx:75-78 | the reduce adds the number of notifications to the sum over the types |
| NotificationLogs.TallyKeys | src/app/admin/notifications/page.tsx:75-78 | the reduce's keys are the start keys plus the types present |
| NotificationLogs.TypesInKnown | src/app/admin/notifications/page.tsx:75-78 | only the four type names occur |
| NotificationLogs.ByTypeSumsToTotal | src/app/admin/notifications/page.tsx:72-81 | the per-type counts add up to the total, have at most four keys, and have a key exactly for each type present |
| NotificationLogs.ReadCardIsReadCount | src/app/admin/notifications/page.tsx:73-74 | unread is at most the total, and total minus unread is the number of read notifications |
| Navbar.FormatTimeAgo | src/components/layout/Navbar.tsx:47-58 | `formatTimeAgo`; TimeAgoCases states each bucket and its range |
| Navbar.FloorDiv | src/components/layout/Navbar.tsx:50-52 | `Math.floor(a / b)` for a positive divisor |
| Navbar.TimeAgoCases | src/components/layout/Navbar.tsx:47-58 | under a minute: `Just now`; then minutes (1..59), hours (1..23) and days, each in its own range |
| Navbar.Icon | src/components/layout/Navbar.tsx:38-45 | any type other than success, warning and error gets the info icon |
| Navbar.Icons | src/components/layout/Navbar.tsx:38-45 | success shows ✅, warning ⚠️, error ❌ and info ℹ️ |
| Navbar.IconsDistinct | src/components/layout/Navbar.tsx:38-45 | the four notification types get four different icons |
| Navbar.BadgeText | src/components/layout/Navbar.tsx:77-81 | a badge appears exactly when something is unread, reads `99+` above 99, and is at most three characters |
| Navbar.BadgeShowsCount | src/components/layout/Navbar.tsx:79 | from 1 to 99 the badge is the count in decimal, which reads back as the count |
| Navbar.DropdownItems | src/components/layout/Navbar.tsx:60 | the dropdown lists the first ten notifications, at most |
| Navbar.Toggle | src/components/layout/Navbar.tsx:30-32 | the bell flips the dropdown |
| Navbar.Close | src/components/layout/Navbar.tsx:93 | the close button and an outside click always close it |
| Navbar.ToggleTwice | src/components/layout/Navbar.tsx:30-32 | two clicks on the bell restore the state |
| StatusPage.UserStatusEvents | src/app/admin/status/page.tsx:68-93 | the events of a user status change; UserStatusEventsShape states them |
| StatusPage.BadgeEvents | src/app/admin/status/page.tsx:95-116 | the event of a badge change; BadgeEventsShape states it |
| StatusPage.ProductStatusEvents | src/app/admin/status/page.tsx:118-146 | the events of a product status change; ProductStatusEventsShape states them |
| StatusPage.RunEvents | src/app/admin/status/page.tsx:76-92 | the awaited events, one after another; RunEventsEffect states their effect |
| StatusPage.StatusColor | src/app/admin/status/page.tsx:33-49 | an unknown status is gray |
| StatusPage.StatusColors | src/app/admin/status/page.tsx:33-49 | pending yellow, approved, active and live green, sold blue, suspended and inactive red |
| StatusPage.BadgeColor | src/app/admin/status/page.tsx:51-62 | an unknown badge is gray |
| StatusPage.BadgeColors | src/app/admin/status/page.tsx:51-62 | Elite is violet, Pro blue and Expert orange |
| StatusPage.BadgeColorsDistinct | src/app/admin/status/page.tsx:51-62 | each badge has its own colour, none of them gray |
| StatusPage.UserStatusEventsShape | src/app/admin/status/page.tsx:68-93 | first `status_updated` with type `User`, the old and new status and the user id; then `seller_account_approved` with `{ sellerId }` exactly when a seller is approved |
| StatusPage.ApprovingSellerMissesSeller | src/app/admin/status/page.tsx:90-92 | that second event's notice is addressed to nobody and its email returns `false` unsent |
| StatusPage.BadgeEventsShape | src/app/admin/status/page.tsx:95-116 | a badge change triggers one `status_updated` of type `Badge Level`, with `Standard` for an absent old or new badge |
| StatusPage.ProductStatusEventsShape | src/app/admin/status/page.tsx:118-146 | first `status_updated` addressed to the seller with the old status, then `product_marked_live` exactly when the new status is live |
| StatusPage.RunEventsEffect | src/app/admin/status/page.tsx:76-92 | triggering events in sequence only adds notifications and keeps the invariant |
| StatusPage.SetUserStatusAll | src/app/admin/status/page.tsx:74 | the page's copy updates every user with the id, and no other |
| StatusPage.SetBadgeAll | src/app/admin/status/page.tsx:101 | the page's copy updates the badge of every user with the id, and no other |
| StatusPage.SetProductStatusAll | src/app/admin/status/page.tsx:124 | the page's copy updates every product with the id, and no other |
| StatusPage.PendingUsers | src/app/admin/status/page.tsx:152 | the pool is exactly the pending users |
| StatusPage.PendingProducts | src/app/admin/status/page.tsx:158 | the pool is exactly the pending products |
| StatusPage.RandomChange | src/app/admin/status/page.tsx:148-164 | the simulation only approves a pending user or makes a pending product live, and does nothing exactly when the chosen pool is empty |
| StatusPage.StatusManagement.constructor | src/app/admin/status/page.tsx:65-66 | the page starts from the browser copy's users and products |
| StatusPage.StatusManagement.TriggerAll | src/app/admin/status/page.tsx:76-92 | awaiting the events one by one has the effect of the sequential dispatch on the server copy |
| StatusPage.StatusManagement.HandleUserStatusChange | src/app/admin/status/page.tsx:68-93 | an unknown user changes nothing; otherwise the browser copy gets the new status, the page list is updated, and the server copy receives the status event and, for an approved seller, the approval event, in order |
| StatusPage.StatusManagement.HandleUserBadgeChange | src/app/admin/status/page.tsx:95-116 | an unknown user changes nothing; otherwise the browser copy gets the new badge, the page list is updated, and the server copy receives the one badge event |
| StatusPage.StatusManagement.HandleProductStatusChange | src/app/admin/status/page.tsx:118-146 | an unknown product changes nothing; otherwise the browser copy gets the new status and `updatedAt`, the page list is updated, and the server copy receives the status event and, for `live`, the live event, in order |
| StatusPage.StatusManagement.SimulateRandomStatusChange | src/app/admin/status/page.tsx:148-164 | with an empty pool nothing changes; otherwise the chosen user is approved or the chosen product made live, with that handler's events, browser-copy update, page-list update and server-copy notices |
| SimulateRoute.Registration | src/app/api/simulate/route.ts:33-59 | the registration interaction on values; RegistrationEffect states its effect |
| SimulateRoute.NewOrderStep | src/app/api/simulate/route.ts:62-116 | the new-order interaction on values; NewOrderRecordShape and NewOrderEffect state its effect |
| SimulateRoute.Approval | src/app/api/simulate/route.ts:119-171 | the approval interaction on values; ApprovalEffect states its effect |
| SimulateRoute.ReturnStep | src/app/api/simulate/route.ts:174-243 | the return interaction on values; ReturnEffect states its effect |
| SimulateRoute.Interact | src/app/api/simulate/route.ts:24-247 | `generateRandomInteraction`; InteractAddsOneNotification states what every interaction adds |
| SimulateRoute.Post | src/app/api/simulate/route.ts:8-22 | `POST` on values; PostStatus states its statuses and when the store changes |
| SimulateRoute.Finish | src/app/api/simulate/route.ts:44-51 | each interaction's `addNotification` adds one record in front and advances the counter, keeping the invariant |
| SimulateRoute.PostStatus | src/app/api/simulate/route.ts:8-22 | 400 exactly for an action other than `simulate`; 500 exactly for an unreadable body or a throwing interaction; only a 200 changes the store |
| SimulateRoute.InteractAddsOneNotification | src/app/api/simulate/route.ts:24-247 | every interaction that does not throw adds exactly one notification in front and keeps the invariant |
| SimulateRoute.RegistrationEffect | src/app/api/simulate/route.ts:33-59 | registration appends one pending user at the end, changes nothing else and reports no email |
| SimulateRoute.NewOrderRecordShape | src/app/api/simulate/route.ts:63-74 | the new order is shipped or on hold, with amount in 1000..10999, a five-digit order number in 10000..99999 and payout `processing` |
| SimulateRoute.NewOrderEffect | src/app/api/simulate/route.ts:62-116 | the order goes in at index 0, nothing else changes but the notifications, and the email counts as sent exactly when the seller is found |
| SimulateRoute.ApprovalEffect | src/app/api/simulate/route.ts:119-171 | with pending users exactly one becomes active and no other user changes, email only for a seller; otherwise only a `System Update` notice |
| SimulateRoute.Shipped | src/app/api/simulate/route.ts:175 | the filter keeps only shipped orders from the list, and every shipped one |
| SimulateRoute.ShippedMultiset | src/app/api/simulate/route.ts:175 | each shipped order is kept as often as it occurs and every other order is dropped |
| SimulateRoute.RecentShippedPrefix | src/app/api/simulate/route.ts:175 | the return candidates are the first five shipped orders |
| SimulateRoute.ReturnEffect | src/app/api/simulate/route.ts:174-242 | with a candidate one pending return request for a shipped order is appended, email counted as sent exactly when the buyer is found; otherwise only a `System Check` notice |
| SimulateRoute.RunRegistration | src/app/api/simulate/route.ts:33-59 | the in-place `push` and add give the specified registration step |
| SimulateRoute.RunNewOrder | src/app/api/simulate/route.ts:62-116 | the in-place `unshift`, email and add give the specified order step |
| SimulateRoute.RunApproval | src/app/api/simulate/route.ts:119-171 | the in-place status assignment, email and add give the specified approval step |
| SimulateRoute.RunReturn | src/app/api/simulate/route.ts:174-242 | the in-place `push`, email and add give the specified return step |
| SimulateRoute.RunInteraction | src/app/api/simulate/route.ts:24-247 | runs the drawn interaction on the store; a throwing one leaves the store unchanged |
| SimulateRoute.HandlePost | src/app/api/simulate/route.ts:8-22 | the route on the store answers and changes the store as the value-level `POST` |
| AdminCardLarge.ColumnKeys | src/components/common/AdminCardLarge.tsx:22 | the column keys; ColumnKeysProperties states them |
| AdminCardLarge.Label | src/components/common/AdminCardLarge.tsx:33 | the header text; LabelUnchanged, LabelSeparatesWords and LabelKeepsCharacters state it |
| AdminCardLarge.CellFor | src/components/common/AdminCardLarge.tsx:43-47 | the cell of a key and value; CellCases, ActionsAnyCase, ZeroAndEmptyShowDash and MissingKeyShowsDash state it |
| AdminCardLarge.Render | src/components/common/AdminCardLarge.tsx:13-52 | the card; RenderShape states its shape |
| AdminCardLarge.FlatKeys | src/components/common/AdminCardLarge.tsx:22 | the flattened key list holds every key of every row |
| AdminCardLarge.FlatKeysFromRows | src/components/common/AdminCardLarge.tsx:22 | every flattened key is the key of some row's entry |
| AdminCardLarge.Dedup | src/components/common/AdminCardLarge.tsx:22 | the set has no duplicates and the same elements as its input |
| AdminCardLarge.DedupFirstAppearance | src/components/common/AdminCardLarge.tsx:22 | the set lists its elements in order of first appearance |
| AdminCardLarge.ColumnKeysProperties | src/components/common/AdminCardLarge.tsx:22 | the columns name every key of every row, each once, in order of first appearance |
| AdminCardLarge.SpaceUpper | src/components/common/AdminCardLarge.tsx:33 | after the replace every uppercase letter follows a space |
| AdminCardLarge.SpaceUpperSingle | src/components/common/AdminCardLarge.tsx:33 | a single uppercase letter becomes a space and the letter; any other character stays |
| AdminCardLarge.SpaceUpperConcat | src/components/common/AdminCardLarge.tsx:33 | the replace works character by character: it distributes over concatenation |
| AdminCardLarge.Trim | src/components/common/AdminCardLarge.tsx:33 | the trimmed text neither starts nor ends with white space, and only white space was cut from either end |
| AdminCardLarge.LabelUnchanged | src/components/common/AdminCardLarge.tsx:33 | a key with no uppercase letter and no surrounding white space is its own label |
| AdminCardLarge.LabelSeparatesWords | src/components/common/AdminCardLarge.tsx:33 | in a label every uppercase letter except a leading one follows a space |
| AdminCardLarge.LabelKeepsCharacters | src/components/common/AdminCardLarge.tsx:33 | a label has the key's non-space characters, in order: only white space is added or removed |
| AdminCardLarge.Lookup | src/components/common/AdminCardLarge.tsx:45-47 | a row lacking the key gives `undefined` |
| AdminCardLarge.LookupFirst | src/components/common/AdminCardLarge.tsx:45-47 | a row holding the key gives the value of its first entry with that key |
| AdminCardLarge.CellCases | src/components/common/AdminCardLarge.tsx:43-47 | `actions` in any letter case shows the buttons; any falsy value shows `-`; anything else, an element included, is shown as is |
| AdminCardLarge.ActionsAnyCase | src/components/common/AdminCardLarge.tsx:43-47 | `Actions` and `ACTIONS` columns show the buttons |
| AdminCardLarge.ZeroAndEmptyShowDash | src/components/common/AdminCardLarge.tsx:43-47 | 0 and the empty string show `-` |
| AdminCardLarge.RenderShape | src/components/common/AdminCardLarge.tsx:13-52 | no rows gives `No data available` and no table; otherwise one header per column and one cell per row and column, as specified |
| AdminCardLarge.MissingKeyShowsDash | src/components/common/AdminCardLarge.tsx:45-47 | a row lacking a column's key shows `-` in that column, unless it is the actions column |

## Left out

- The `fetch` to the Brevo API, the `process.env` key and all console logging. These are network and host I/O. Their outcome is the `Delivery` parameter: no key; a 2xx response with a JSON body; a non-2xx response; or a throw from `fetch`, `json()` or `text()`.
- `Date.now`, `new Date()`, `Math.random` and `setTimeout`. These are clocks and randomness. They are parameters (`Stamp`, `Stamps`, `Draws`, `now`). `simulateNotificationEvent` and the two-second recency check in the notification handler are therefore not modelled.
- async/await. Every await is a sequential call; nothing here is about concurrency.
- The replacement patterns (`$&`, `$1`) of a JavaScript regex replacement string: values are taken to contain none.
- Template variable names are taken to be plain identifiers. The code builds each placeholder as the source of a `RegExp`, and `variables[v]` also reads inherited object properties. The model matches the name literally and reads only the object's own fields. Every template's declared names are plain identifiers.
- Unicode case mapping in `toLowerCase`. The model lowercases ASCII only.
- The browser and server copies of the mock data. The status page, the context and the logs page run in the browser, while `triggerEvent` and the simulator endpoint run on the server, so each side updates its own copy. The status page handlers state both copies. Nothing in the model merges the two, and the two never exchange data.
- Object-reference aliasing within one copy. In the code, the page's `useState` lists start out holding the same user and product objects as the module's arrays. The model gives the page its own lists and applies the same update to each. Until the page's spread update replaces a product object, the code also shows the store's new `updatedAt` in the page's list; the model's page list keeps the old `updatedAt`.
- The local-time reading of the seed notifications' dates (`new Date('2024-12-20T10:30:00')` and the two like it). The model fixes them as the UTC instants of those date-times, for example 1734690600000. In the code, the instant depends on the host's time zone.
- The toast messages (`notifications.show`) on the status page. They are display only.
- The `seller pro` user type. The types declare no such value, so the route's second approval test can never hold.
- UI pages and components with no logic in scope: the dashboard, orders and users pages, the charts, layout files, JSX/Mantine/React machinery, and the notification handler component.
- `src/actions/notifications.ts`. It is only a rethrowing wrapper.
- The provider's subscribe-on-mount wiring. No handler ever emits to subscribers.
- `Object.keys` ordering of integer-like keys. A row is given as its keys in enumeration order.
- A `NaN` cell value, whose falsiness is not represented: numbers are reals.
- NotificationService.ReturnInitiatedSilentOnSeed: stated for the seed data only, because on other data a product can share an order's id.
