# NCT VIP portal: quotes, order lifecycle and record mapping in Dafny

This project models the business logic of the NCT translation bureau's
back office and its VIP customer portal. The logic sits between the
route handlers and the Notion database:

- the quote calculator (`calculatePrice`, `applyDiscount`, `getPriceList`);
- the order lifecycle: five stages in sequence plus the off-path `Lost`
  state, the customer cancel guard and the status timeline;
- the owner-or-admin access rule, the customer update allow-list and the
  admin gate;
- the order record: the property map `createOrder` and `updateOrder`
  build, the filter `getOrders` sends, `parseOrderFromPage` with its
  defaults, and the counters of `getStatistics`;
- the admin reports: dashboard counts, grouping orders into customers by
  phone, sorting and paging them, and customer detail totals;
- the portal's helpers: the `extract.*` readers, `PREFIX-number` profile
  ids, `verifyLogin`, the `getProjects` query and `getStats`;
- the portal's project list: status, search and pagination.

A route handler is a function of the caller, the request and the records
the store returned. Its outcome is an `Api.Reply` (a status code and data,
or a `Failure`) together with the writes it issues (`Api.Effect`), in
order. The store, the file service, the clock and the authentication layer
do not appear: what they return is a parameter.

Where the source builds something step by step, the model does too:
- `calculatePrice` fills a breakdown record line by line
  (`Pricing.CalculatePrice`);
- `createOrder` and `updateOrder` fill a property dictionary
  (`NotionService.CreateOrderProperties`,
  `NotionService.UpdateOrderProperties`);
- `getOrders` pushes filter conditions (`NotionService.BuildOrdersQuery`);
- `getStatistics` bumps counters in a loop (`NotionService.GetStatistics`);
- the customer update deletes keys in a loop
  (`OrderRoutes.DropDisallowedKeys`);
- the customers report groups orders in a loop (`AdminRoutes.GroupByPhone`);
- the payment route fills an update object by conditional assignment
  (`AdminRoutes.BuildPaymentUpdates`).

Each of these methods is proved equal to a specification function, and
the properties are proved as lemmas about those functions.

JavaScript semantics are modelled explicitly in module `Js`:
- truthiness, `||` and `??`, and destructuring defaults, which apply only
  to `undefined`;
- `slice` with negative and out-of-range indices;
- `Math.ceil(a / b)` as a `JsNumber`, which is `NaN` or `Infinity` when
  dividing by zero;
- `===` between possibly undefined or null values;
- ASCII case mapping, `includes`, `String(n)` and `parseInt`.

A Notion page is a `NotionData.Page` whose properties are a record with
one optional slot per column the code names. A missing column reads as
`None`, like `undefined` in the source.

Modules, one per file:

| module | file | models |
|---|---|---|
| Js | js.dfy | JavaScript value semantics used throughout |
| Pricing | pricing.dfy | pricing.service.js |
| NotionData | notion_data.dfy | Notion property values and page rows |
| Counters | counters.dfy | per-key counters (`obj[k] = (obj[k] \|\| 0) + 1`) |
| NotionService | notion_service.dfy | notion.service.js |
| Lifecycle | lifecycle.dfy | the status vocabulary of order.routes.js and admin.routes.js |
| Api | api.dfy | callers, failures, replies and writes shared by the routes |
| OrderRoutes | order_routes.dfy | order.routes.js |
| AdminRoutes | admin_routes.dfy | admin.routes.js |
| NotionLib | notion_lib.dfy | lib/notion.js |
| ProjectsRoute | projects_route.dfy | app/api/projects/route.js |

## Model

| member | source | states |
|---|---|---|
| NotionData.FirstPage | notion.service.js:264 | one store query returns the first `pageSize` matching pages in the query's order: exactly `min(count, pageSize)` of them, a prefix of the matches |
| Pricing.RoundHalf | pricing.service.js:121 | `Math.round(x * 0.5)` for an integer x: the result r satisfies `x <= 2r <= x + 1`, i.e. halves round up |
| Pricing.ServiceCost | pricing.service.js:55-81 | the service line computed step by step equals the service amount of the options |
| Pricing.CalculatePrice | pricing.service.js:31-158 | the quote built by assigning the breakdown line by line, summing, adding rush and dropping zero lines equals `QuoteOf(o)` |
| Pricing.QuoteOf | pricing.service.js:31-158 | the quote `calculatePrice` returns for the options; its properties are stated by `QuoteIsSumOfLines`, `ServiceLineRule`, `CertificationAndCopies`, `InsuranceAndDelivery` and `BreakdownListsPositiveLines` |
| Pricing.QuoteIsSumOfLines | pricing.service.js:116-126 | subtotal is service + certification + insurance + copies + delivery (rush excluded); total is subtotal + rush; rush is 0 without `rushTranslation` and otherwise half the service line rounded up |
| Pricing.RushIndependentOfOtherLines | pricing.service.js:119-126 | two option sets with the same rush flag and the same service line have the same rush fee and the same total − subtotal |
| Pricing.ServiceLineRule | pricing.service.js:55-81 | the service line is words × 66 exactly for full service with words > 0, else pages × the type's rate; an unknown type uses 15000 |
| Pricing.WordsIgnoredUnlessFullService | pricing.service.js:75-81 | for a type other than full service, changing the word count changes neither the service line nor the total |
| Pricing.CertificationAndCopies | pricing.service.js:84-108 | certification is numDocs × 5000 when requested, else 0; copies is copies × pages × 2500 only when copies > 0, else 0 |
| Pricing.InsuranceAndDelivery | pricing.service.js:90-114 | insurance is count × the tier rate for the four known tiers and 0 for an absent or unknown tier; delivery is 5000 iff the method is `delivery`, else 0 |
| Pricing.DefaultsOnlyForAbsentFields | pricing.service.js:32-43 | for every service type, defaults apply only to absent fields: without a word count, an explicit 0 pages gives a 0 service line and absent pages the type's one-page rate; an absent document count certifies one document and an explicit 0 none; an absent insurance count insures one at the tier's rate and an explicit 0 costs nothing; an absent type prices as full service; absent insurance, copies and delivery cost nothing |
| Pricing.SumOfEntries | pricing.service.js:117 | summing the breakdown's entries gives the sum of its six amounts |
| Pricing.PositiveKeeps | pricing.service.js:129-134 | a line survives the zero filter iff it was present and its amount is positive |
| Pricing.BreakdownListsPositiveLines | pricing.service.js:128-141 | the returned breakdown holds exactly the lines with a positive amount; in particular the service and rush lines appear iff positive |
| Pricing.QuoteScenarioCertified | pricing.service.js:31-158 | three full-service pages with one certified document: subtotal and total 50000 |
| Pricing.QuoteScenarioRushedWords | pricing.service.js:31-158 | full service with 1000 words and rush: service 66000, rush 33000, total 99000 |
| Pricing.QuoteScenarioInsuredDelivery | pricing.service.js:31-158 | two AI pages, 45-day insurance and delivery: total 32500 |
| Pricing.ApplyDiscount | pricing.service.js:276-294 | percentage: discount is total × v / 100 rounded half up and subtracted; fixed: discount v and total clamped at 0; any other type: no discount; the original total is kept |
| Pricing.PercentageDiscountBounds | pricing.service.js:276-284 | for a non-negative total and 0..100 percent, the discount is non-negative and the discounted total lies in 0..total |
| Pricing.GetPriceList | pricing.service.js:163-270 | the published price list; `PriceListServicesAgree` and `PriceListOptionsAgree` prove that it lists the prices the calculator charges |
| Pricing.PriceListServicesAgree | pricing.service.js:163-221 | every service in the price list costs its listed page price when quoted for one page |
| Pricing.OnePageTotal | pricing.service.js:31-158 | a one-page quote with no extras totals exactly the service type's page rate |
| Pricing.PriceListOptionsAgree | pricing.service.js:222-270 | each listed insurance tier and delivery method is charged at its listed price |
| NotionService.RichTextToString | notion.service.js:29-32 | a missing or empty rich-text array gives `''` |
| NotionService.JoinPlainTextAppend | notion.service.js:31 | joining the fragments of a concatenation is concatenating the joins, so fragments appear in order |
| NotionService.JoinPlainTextLength | notion.service.js:31 | the joined text's length is the sum of the fragment lengths; one fragment joins to its own text |
| NotionService.DocumentsOf | notion.service.js:98-101 | the document list has one entry per file, each with the file's name and its hosted or external URL |
| NotionService.ParseOrderFromPage | notion.service.js:56-106 | the order record read from a page; its defaults and numbers are stated by `ParseOrderDefaults` and `ParseOrderNumbers`, and reading back a created page by `ParseCreatedOrder` |
| NotionService.ParseOrderDefaults | notion.service.js:56-106 | on a page with none of the columns: pages, words and final quotation 0, numDocs 1, certification false, every list empty, names and notes `''`, phone undefined |
| NotionService.ParseOrderNumbers | notion.service.js:67-85 | a set page count reads as itself; a set N. of Docs reads as itself except 0, which reads as 1, and an unset one reads as 1; an unset phone reads as null |
| NotionService.OrderProperties | notion.service.js:117-192 | the columns `createOrder` writes; stated column by column by `CreatedOrderStatuses`, `CreatedOrderDefaults`, `CreatedOrderOptionalFields` and `CreatedOrderRow` |
| NotionService.CreateOrderProperties | notion.service.js:117-192 | the property map built step by step equals `OrderProperties(d)` |
| NotionService.CreatedOrderStatuses | notion.service.js:124-129 | a created order always has Status `New Ticket` and Payment Status `Not Paid`, whatever the input |
| NotionService.CreatedOrderDefaults | notion.service.js:130-159 | falsy page and document counts become 1, a falsy price 0; absent services, languages and delivery become `Translation`, `En ⇆ Ar` and `Pickup`; a falsy channel becomes `App` |
| NotionService.CreatedOrderOptionalFields | notion.service.js:162-192 | Insurance and Number of Insurance appear iff the insurance list is non-empty (count defaulting to 1); Words, Deadline, Payment Method and Customer Status appear iff truthy; no other column is written |
| NotionService.CreatedOrderRow | notion.service.js:117-192 | every column of the created page as a function of the order data |
| NotionService.ParseCreatedOrder | notion.service.js:56-202 | parsing the page just built returns the statuses, names, counts, price, services, channel, phone and payment method that were stored |
| NotionService.UpdateProperties | notion.service.js:326-361 | the columns `updateOrder` writes; stated by `UpdateWritesWhen`, `UpdateIgnoresOtherKeys` and `UpdateWithoutKnownKeys` |
| NotionService.UpdateOrderProperties | notion.service.js:326-361 | the property map built step by step equals `UpdateProperties(u)` |
| NotionService.UpdateWritesWhen | notion.service.js:331-361 | status, payment status, payment method, translation time and deadline are written iff truthy; final quotation and notes whenever present, 0 and `''` included |
| NotionService.UpdateIgnoresOtherKeys | notion.service.js:328-361 | adding a key outside the seven known ones does not change the property map |
| NotionService.UpdateWithoutKnownKeys | notion.service.js:328-361 | updates with none of the known keys write no property |
| NotionService.OrdersQueryOf | notion.service.js:257-307 | the query `getOrders` sends; stated by `ConditionsForTruthyFilters`, `ConditionsInOrder` and `FilterShape` |
| NotionService.BuildOrdersQuery | notion.service.js:257-307 | the query built by pushing conditions equals `OrdersQueryOf(f, p)` |
| NotionService.ConditionsForTruthyFilters | notion.service.js:273-301 | each filter condition is present iff its filter value is truthy, and carries that value |
| NotionService.ConditionsInOrder | notion.service.js:273-301 | conditions appear in the order status, payment status, date from, date to |
| NotionService.FilterShape | notion.service.js:259-307 | no condition gives no filter, one gives that condition alone, two or more give their conjunction; the page size defaults to 20 |
| NotionService.CountEach | notion.service.js:457-459 | counting a list of keys into a tally gives the tally of the concatenation |
| NotionService.StatisticsOf | notion.service.js:435-464 | the statistics of a list of orders; stated by `StatisticsTotals`, `StatusBuckets` and `RevenueAppend` |
| NotionService.GetStatistics | notion.service.js:435-464 | the statistics computed by the loop equal `StatisticsOf(orders)` |
| NotionService.StatisticsTotals | notion.service.js:438-464 | totalOrders is the order count; the status, payment and channel counters each sum to it; the service counter sums to the number of services listed |
| NotionService.StatisticsSeeOneStorePage | notion.service.js:429-440 | the statistics read one page of at most 100 orders, so a period with more orders is counted as 100, and the status counters still add up to that count |
| NotionService.KeysOfStatusCount | notion.service.js:449-450 | the number of times a key is counted is the number of orders whose status (or `Unknown`) is that key |
| NotionService.StatusBuckets | notion.service.js:447-450 | byStatus counts orders per status, with `Unknown` for a missing one, has no duplicate keys, and has a key iff some order has it |
| NotionService.RevenueAppend | notion.service.js:440 | the revenue of two lists together is the sum of their revenues |
| Counters.TallyTotal | notion.service.js:447-464 | the counts of a tally sum to the number of keys counted |
| Counters.TallyCount | notion.service.js:450 | a key's count is its number of occurrences |
| Counters.TallyKeys | notion.service.js:450 | a tally has no duplicate keys and has exactly the keys counted |
| Counters.BumpTotal | notion.service.js:450 | one increment adds one to the total |
| Counters.BumpCount | notion.service.js:450 | one increment adds one to that key's count and changes no other |
| Counters.BumpKeys | notion.service.js:450 | an increment adds its key and no other |
| Counters.BumpDistinct | notion.service.js:450 | an increment keeps the keys distinct |
| Lifecycle.ParseStatus | admin.routes.js:139 | a recognised name parses to the status with that name |
| Lifecycle.ParseStatusName | admin.routes.js:139 | each status's name parses back to it |
| Lifecycle.ValidStatusesAreTheStatuses | admin.routes.js:139-147 | the admin vocabulary is exactly the six lifecycle states |
| Lifecycle.CancellableStatuses | order.routes.js:244-251 | among the six states, only `New Ticket` and `Lost` can be cancelled |
| Lifecycle.IndexOf | order.routes.js:285 | `indexOf`: the first position holding the value, or -1 when it is missing or undefined |
| Lifecycle.TimelineOf | order.routes.js:287-299 | one entry per stage with its name and Arabic label; completed before the current index, current at it, pending after it |
| Lifecycle.TimelineOfCounts | order.routes.js:287-299 | how many entries are completed, current and pending, for any current index |
| Lifecycle.TimelineCounts | order.routes.js:284-299 | at stage i: i completed, one current, 4 − i pending; outside the pipeline: all five pending |
| Lifecycle.TimelineEntryStates | order.routes.js:287-299 | for a stage status each entry is in exactly one state and the current one is the order's status; otherwise every entry is pending |
| Api.StatusCode | order.routes.js:61-103 | every failure answers with a 4xx or 5xx code |
| OrderRoutes.CanAccess | order.routes.js:60 | the owner-or-admin rule; stated by `AccessRule` |
| OrderRoutes.AccessRule | order.routes.js:60 | a non-admin caller gets in iff the order's phone strictly equals theirs: an undefined caller phone matches only an order without a Phone column; a null phone matches no one |
| OrderRoutes.ListOrders | order.routes.js:19-47 | `GET /orders`: filter by status, then page; stated by `WithStatus` and `ListOrdersPage` |
| OrderRoutes.WithStatus | order.routes.js:27-29 | the status filter keeps exactly the orders with that status |
| OrderRoutes.ListOrdersPage | order.routes.js:19-47 | the total is the filtered count; the page is the contiguous run at (page − 1) × limit with at most limit orders, all from the list and with the requested status; for a positive limit, pages is finite and that many pages hold every order |
| OrderRoutes.GetOrder | order.routes.js:54-72 | the order is returned iff the caller may access it, otherwise 403 |
| OrderRoutes.DocTypeNames | order.routes.js:148 | each document type is mapped through the vocabulary, one name per type |
| OrderRoutes.DocTypeNamePassesUnknown | order.routes.js:120-148 | an unknown document type passes through unchanged; known ones map to the store's names |
| OrderRoutes.CreateOrderData | order.routes.js:105-164 | the order data handed to `createOrder`; stated by `CreateVocabulary` and `CreatedRecordMatchesQuote` |
| OrderRoutes.HandleCreate | order.routes.js:79-186 | `POST /orders`; stated by `CreateNeedsServiceType` and `CreateWritesOrderThenFolders` |
| OrderRoutes.CreateNeedsServiceType | order.routes.js:100-103 | creation fails with 400 and writes nothing iff the service type is falsy |
| OrderRoutes.CreateWritesOrderThenFolders | order.routes.js:105-185 | the order is saved first with the quote's total as its price; then folders are made for the stored name and the new id, then the notes are updated; a folder failure does not change the 201 reply |
| OrderRoutes.CreateVocabulary | order.routes.js:119-162 | document types, delivery and insurance are translated to the store's vocabulary (unknown delivery becomes `Pickup`); customer status `First Time - Reg` and channel `App` are fixed |
| OrderRoutes.CreatedRecordMatchesQuote | order.routes.js:105-164 | the stored price is the quote total, and the stored page and document counts are those the quote used; insurance count is stored iff an insurance tier was given |
| OrderRoutes.HandleStatus | order.routes.js:271-309 | the status view is returned iff the caller may access the order, with the order's status, payment status and its timeline |
| OrderRoutes.LostOrderTimeline | order.routes.js:284-299 | a lost order's timeline has five pending entries and nothing completed or current |
| OrderRoutes.HandleUpdate | order.routes.js:193-223 | `PUT /orders/:id`; stated by `UpdateAllowList`, `CustomerUpdateWritesOnlyNotesAndPayment` and `DeniedCallerChangesNothing` |
| OrderRoutes.DropDisallowedKeys | order.routes.js:207-213 | deleting keys in a loop leaves exactly `CustomerUpdates(updates)`: the notes and payment method entries |
| OrderRoutes.UpdateAllowList | order.routes.js:193-223 | an admin's updates are written unchanged; a customer's are cut down to notes and payment method, with their values |
| OrderRoutes.CustomerUpdateWritesOnlyNotesAndPayment | order.routes.js:207-215 | whatever a customer sends, only notes and payment method can reach the store |
| OrderRoutes.CancelUpdates | order.routes.js:253-256 | the cancel write: status `Lost` and the notes with the reason appended; stated by `CancelRule` |
| OrderRoutes.HandleCancel | order.routes.js:230-264 | `POST /orders/:id/cancel`; stated by `CancelRule`, `CancelByStage` and `DeniedCallerChangesNothing` |
| OrderRoutes.CancelRule | order.routes.js:230-264 | cancelling fails with 400 and writes nothing iff the status is one of the four later stages; otherwise it writes status `Lost` and the notes with the cancellation reason appended, and nothing else |
| OrderRoutes.CancelByStage | order.routes.js:244-251 | for a status in the vocabulary, cancelling succeeds iff it is `New Ticket` or `Lost` |
| OrderRoutes.DeniedCallerChangesNothing | order.routes.js:54-282 | a caller without access gets 403 from every route and causes no write |
| OrderRoutes.PriceCheckOptions | order.routes.js:316-319 | the options `POST /calculate-price` hands to the calculator unchanged; stated by `PriceCheckAgreesWithCreate` and `PriceCheckZeroPages` |
| OrderRoutes.PriceCheckAgreesWithCreate | order.routes.js:106-117 | without explicit zero counts, the price check (`POST /calculate-price`, lines 316-319) and creation quote the same |
| OrderRoutes.PriceCheckZeroPages | order.routes.js:108 | an AI quote with pages 0 is 0 from the price check (`POST /calculate-price`, lines 316-319) but 10000 at creation, which replaces a falsy page count by 1 |
| AdminRoutes.Gate | admin.routes.js:14-25 | `requireAdmin` in front of a handler; stated by `EveryAdminRouteRequiresAdmin` |
| AdminRoutes.OverviewOf | admin.routes.js:47-70 | the dashboard counts; stated by `WithPaymentStatus`, `DistinctStatusesCountApart`, `OverviewTotals` and `OverviewCountsOneOrderTwice` |
| AdminRoutes.HandleDashboard | admin.routes.js:32-78 | `GET /admin/dashboard` over the two statistics and the order list it is given; stated by `OverviewTotals` and `EveryAdminRouteRequiresAdmin` |
| AdminRoutes.AllOrdersQuery | admin.routes.js:47 | the unfiltered one-page query of 100 orders the dashboard and the customers report send; stated by `DashboardSeesOneStorePage` and `CustomersSeeOneStorePage` |
| AdminRoutes.DashboardSeesOneStorePage | admin.routes.js:47-52 | the overview covers one page of at most 100 orders: each stage count at most 100, the active total at most 200 |
| AdminRoutes.WithPaymentStatus | admin.routes.js:50 | the payment filter keeps exactly the orders with that payment status |
| AdminRoutes.DistinctStatusesCountApart | admin.routes.js:51-52 | orders with two different statuses are counted apart, so together they are at most all orders |
| AdminRoutes.OverviewTotals | admin.routes.js:50-70 | totalActive is the sum of the three counts; in progress plus awaiting delivery is at most the order count |
| AdminRoutes.OverviewCountsOneOrderTwice | admin.routes.js:50-69 | an unpaid order in translation counts twice in totalActive |
| AdminRoutes.HandleAdminOrders | admin.routes.js:85-109 | `GET /admin/orders`: the store query it sends; stated by `AdminOrdersQueryShape` |
| AdminRoutes.HandleAdminUpdate | admin.routes.js:116-128 | `PUT /admin/orders/:id` passes the body to `updateOrder` unchanged behind the admin gate; stated by `EveryAdminRouteRequiresAdmin` |
| AdminRoutes.HandleSetStatus | admin.routes.js:135-157 | `POST /admin/orders/:id/status`; stated by `SetStatusVocabulary` |
| AdminRoutes.AdminOrdersQueryShape | admin.routes.js:85-97 | the page size is the limit (50 by default, 20 for a limit of 0) and the filter conditions are the truthy query values |
| AdminRoutes.SetStatusVocabulary | admin.routes.js:135-157 | setting a status succeeds iff it is one of the six names, and then writes that status and nothing else; otherwise 400 and no write |
| AdminRoutes.PaymentUpdates | admin.routes.js:164-172 | the payment update object; stated by `PaymentUpdatesContents` |
| AdminRoutes.HandlePayment | admin.routes.js:164-180 | `POST /admin/orders/:id/payment`; stated by `PaymentUpdatesContents` and `EveryAdminRouteRequiresAdmin` |
| AdminRoutes.BuildPaymentUpdates | admin.routes.js:168-170 | the updates filled by conditional assignment equal `PaymentUpdates` |
| AdminRoutes.PaymentUpdatesContents | admin.routes.js:164-172 | the updates hold payment status and method exactly when each is truthy, with its value, and write nothing else |
| AdminRoutes.Find | admin.routes.js:236-247 | the first customer with that phone, or -1 when there is none |
| AdminRoutes.FindCustomer | admin.routes.js:236-247 | the lookup loop returns `Find` |
| AdminRoutes.GroupCustomers | admin.routes.js:230-254 | the customer entries in the map's insertion order; stated by `GroupCustomersGrouped`, `CustomerGrouping` and `CustomerTotalsCoverPhonedOrders` |
| AdminRoutes.GroupByPhone | admin.routes.js:230-254 | the grouping loop equals `GroupCustomers(orders)` |
| AdminRoutes.GroupCustomersGrouped | admin.routes.js:230-254 | each customer is the summary of the orders with its phone, phones are distinct, and every phoned order has its customer |
| AdminRoutes.CustomerGrouping | admin.routes.js:230-254 | a phone has a customer iff it has orders; that customer's order count, total spent and last order are the count, revenue and latest creation time of its orders, and its name and status come from its first order |
| AdminRoutes.LatestCreatedIsMaximum | admin.routes.js:243-253 | lastOrder is the largest creation time among the phone's orders |
| AdminRoutes.CustomerTotalsCoverPhonedOrders | admin.routes.js:232-248 | the customers' order counts add up to the number of orders with a phone |
| AdminRoutes.GroupAtMostOrders | admin.routes.js:232-254 | there are never more customer entries than orders |
| AdminRoutes.OrdersOf | admin.routes.js:233-234 | the orders with a given phone, no more than all orders |
| AdminRoutes.Insert | admin.routes.js:256-257 | inserting into a list adds exactly that customer: same multiset plus one, length plus one |
| AdminRoutes.InsertSorted | admin.routes.js:256-257 | inserting into a list sorted by order count keeps it sorted |
| AdminRoutes.SortByOrders | admin.routes.js:256-257 | sorting is a permutation of the customers |
| AdminRoutes.SortByOrdersSorted | admin.routes.js:256-257 | the customers are sorted by order count, non-increasing, and are a permutation of the input |
| AdminRoutes.HandleCustomers | admin.routes.js:223-275 | `GET /admin/customers`; stated by `CustomersPageShape` and `CustomersSeeOneStorePage` |
| AdminRoutes.CustomersSeeOneStorePage | admin.routes.js:227 | the route asks for one unfiltered page of 100 orders, so it never lists more than 100 customers whatever the store holds |
| AdminRoutes.CustomersPageShape | admin.routes.js:223-275 | the total is the number of customers; the page is the contiguous run at (page − 1) × limit of the sorted list, at most limit long and itself sorted; for a positive limit, pages is finite and that many pages hold every customer |
| AdminRoutes.SortedPage | admin.routes.js:259-272 | the same paging facts for any sorted list |
| AdminRoutes.CustomerDetailOf | admin.routes.js:286-297 | the customer summary of the phone's orders; stated by `DetailAgreesWithList` |
| AdminRoutes.HandleCustomerDetail | admin.routes.js:282-302 | `GET /admin/customers/:phone`; stated by `DetailAgreesWithList` and `EveryAdminRouteRequiresAdmin` |
| AdminRoutes.DetailAgreesWithList | admin.routes.js:282-302 | when every order returned carries the phone, the detail's order count and total spent agree with that phone's entry in the customer list; the name falls back to the phone |
| AdminRoutes.GroupEmptyWhenNoOrders | admin.routes.js:230-256 | no orders give no customers |
| AdminRoutes.OrdersOfAll | admin.routes.js:285 | when every order has the phone, the phone's orders are all of them |
| AdminRoutes.EveryAdminRouteRequiresAdmin | admin.routes.js:14-25 | every admin route answers 403 to a non-admin caller and writes nothing |
| NotionLib.ExtractTitle | lib/notion.js:29 | the first fragment's plain text or `''`; stated by `ExtractorDefaults` and `ExtractTitleAgreesWithService` |
| NotionLib.ExtractRichText | lib/notion.js:30 | the first fragment's plain text or `''`; stated by `ExtractorDefaults` |
| NotionLib.ExtractNumber | lib/notion.js:31 | the number, or 0 only when absent; stated by `ExtractorDefaults` |
| NotionLib.ExtractSelect | lib/notion.js:32 | the select option's name or `''`; stated by `ExtractorDefaults` |
| NotionLib.ExtractUrl | lib/notion.js:33 | the URL or `''`; stated by `ExtractorDefaults` |
| NotionLib.ExtractEmail | lib/notion.js:34 | the email or `''`; stated by `ExtractorDefaults` |
| NotionLib.ExtractPhone | lib/notion.js:35 | the phone number or `''`, null included; stated by `ExtractorDefaults` |
| NotionLib.ExtractRelation | lib/notion.js:36 | the related page ids or `[]`; stated by `ExtractorDefaults` |
| NotionLib.ExtractFormula | lib/notion.js:37 | the formula's string, else its number, else null; stated by `ExtractorDefaults` and `CustomerIdChoice` |
| NotionLib.ExtractUniqueId | lib/notion.js:39-43 | the unique id as text; stated by `UniqueIdText` |
| NotionLib.FormatUniqueId | lib/notion.js:39-43 | `prefix-number` or the bare number; stated by `UniqueIdText` and `ProfileIdRoundTrip` |
| NotionLib.ExtractorDefaults | lib/notion.js:28-44 | every reader gives its default on a missing property; a number reads as itself, 0 included, and only an unset number reads as 0 |
| NotionLib.ExtractTitleAgreesWithService | lib/notion.js:29 | a title reads as its first fragment, `''` when empty; with one fragment it agrees with `richTextToString` |
| NotionLib.UniqueIdText | lib/notion.js:38-43 | a unique id reads as prefix-dash-number with a prefix and as the number without one; never empty |
| NotionLib.ParseProfileId | lib/notion.js:77-78 | `/^NCTV-?(\d+)$/i` and the number it captures: a parsed id is longer than the prefix and starts with `NCTV` in some letter case; the if and only-if directions are `ParsesPrefixed` and `ParsedIdSpells` |
| NotionLib.ParsedIdSpells | lib/notion.js:77-78 | only if: every id that parses is `NCTV` in some letter case, an optional dash and one or more decimal digits with nothing else, and its number is the value of those digits |
| NotionLib.ProfileIdRoundTrip | lib/notion.js:38-78 | formatting a number with the `NCTV` prefix and parsing it back gives the number |
| NotionLib.ParsesPrefixed | lib/notion.js:77-78 | if: `NCTV` in any letter case, an optional dash and one or more digits parses to the value of the digits |
| NotionLib.ParsesUndashed | lib/notion.js:77-78 | the dash may be left out: the prefix directly followed by digits parses to their value |
| NotionLib.ProfileIdSpellings | lib/notion.js:77-78 | the prefix may be in any letter case and the dash may be left out |
| NotionLib.ProfileIdRejects | lib/notion.js:77-78 | a bare number, the prefix alone, a trailing letter or a second dash is refused |
| NotionLib.VipProfileOf | lib/notion.js:93-102 | the profile record read from a VIP page; `VipProfileById` relates it to the by-id read |
| NotionLib.VipProfileById | lib/notion.js:112-130 | the profile read by page id is the same record without the password |
| NotionLib.VerifyLogin | lib/notion.js:133-141 | `verifyLogin` over the profile found; stated by `LoginOutcomes` and `LoginIgnoresCase` |
| NotionLib.LoginOutcomes | lib/notion.js:133-141 | no profile gives NOT_FOUND; WRONG_PASSWORD iff the upper-cased passwords differ; success returns every field except the password |
| NotionLib.LoginIgnoresCase | lib/notion.js:135 | the password check ignores the letter case of the password given |
| NotionLib.ProjectsFilterOf | lib/notion.js:149-155 | the filter is always on the profile's relation |
| NotionLib.ProjectSorts | lib/notion.js:157-161 | at most one sort |
| NotionLib.GetProjectsQuery | lib/notion.js:144-168 | the query `getProjects` sends: the filter, the sorts and a page size of 100; stated by `ProjectsQueryChoices` |
| NotionLib.ProjectsQueryChoices | lib/notion.js:146-168 | the `Done` condition is negated exactly for `active` and required exactly for `completed`; an unknown sort gives no sort, a missing one newest first; the query asks for one page of 100 |
| NotionLib.CustomerIdOf | lib/notion.js:174 | `formula || rich_text` for the customer id; stated by `CustomerIdChoice` |
| NotionLib.ProjectOf | lib/notion.js:170-185 | the project record read from a page; its customer id is stated by `CustomerIdChoice` |
| NotionLib.CustomerIdChoice | lib/notion.js:174 | a customer id is a number only when the formula yields a non-zero number and no string; otherwise it is text, from the rich text when the formula is falsy |
| NotionLib.StatsOf | lib/notion.js:197-203 | the `reduce` of `getStats`; stated by `StatsCounts` |
| NotionLib.StatsCounts | lib/notion.js:194-203 | active plus completed is the project count; completed counts status `Done`; each total is the sum over the projects |
| NotionLib.StatsQuery | lib/notion.js:196 | the statistics ask for the profile's projects without a status condition, newest first, one page of 100 |
| NotionLib.StatsSeeOnePage | lib/notion.js:194-203 | the statistics count only the one page of at most 100 projects `getProjects` reads: for a profile with more, active plus completed is 100, fewer than its projects |
| ProjectsRoute.StatusOption | app/api/projects/route.js:14-23 | `all`, like no status, becomes null; any other value passes through |
| ProjectsRoute.ProjectsQueryOf | app/api/projects/route.js:14-23 | the store query for the request; stated by `ProjectsQueryChoice` |
| ProjectsRoute.ProjectsQueryChoice | app/api/projects/route.js:14-23 | `all` and no status ask for every project; `active` and `completed` reach the store's filter; no sort sorts newest first; at most 100 projects are read |
| ProjectsRoute.Matches | app/api/projects/route.js:28-31 | the filter callback, `None` where it throws; stated by `SearchKeepsMatches` |
| ProjectsRoute.Search | app/api/projects/route.js:26-32 | a search result is never longer than the list |
| ProjectsRoute.SearchKeepsMatches | app/api/projects/route.js:26-47 | the search throws iff some project whose name does not match has a numeric customer id; otherwise it keeps exactly the projects whose lower-cased name or textual id contains the query |
| ProjectsRoute.SearchEmptyKeepsAll | app/api/projects/route.js:26-32 | an empty query keeps every project |
| ProjectsRoute.HandleProjects | app/api/projects/route.js:6-49 | `GET /api/projects`; stated by `ProjectsOutcome`, `ProjectsPageShape` and `ProjectsSeeOneStorePage` |
| ProjectsRoute.ProjectsOutcome | app/api/projects/route.js:8-47 | no user gives 401; with a user the route fails only when the search throws, with 500; without a search the list is kept as it is |
| ProjectsRoute.ProjectsPageShape | app/api/projects/route.js:35-43 | total is the searched count and totalPages is ceil(total / limit); the page is the run at (page − 1) × limit of at most limit; hasMore is page < totalPages, i.e. items remain beyond this page for a positive limit and any item exists for limit 0 |
| ProjectsRoute.ProjectsSeeOneStorePage | app/api/projects/route.js:20-35 | the list pages through one store page, so its total never exceeds 100 or the profile's matching projects |
| ProjectsRoute.HasMoreMeansMoreLeft | app/api/projects/route.js:36-43 | for a positive limit, page < ceil(total / limit) iff page × limit < total |

## Left out

- Calls to Notion, Google Drive and the authentication layer are not modelled. What they return is a parameter of the handler: the order, the orders, the created id, the folder URL, the profile found, the user. A failing store call is modelled only where the handler's reply depends on it: creation without an id. (The projects route's other failure is not a store call: the search callback raises a TypeError inside the handler when it lower-cases a numeric customer id, and the handler answers 500; `ProjectsRoute.Matches` models that throw.)
- The clock: dates are integers, and the dashboard's day and month ranges and the `/statistics` route's default period are not computed. The dashboard takes the two statistics and the order list as given.
- `formatDate` and date validity: deadline and translation time are copied as given rather than re-formatted as ISO strings.
- The admin `/statistics` and `/pricing` routes only forward `getStatistics` and `getPriceList`, which are modelled.
- `getOrdersByPhone` and `getOrder` are a store query and a parse. Their results are parameters; `parseOrderFromPage` is modelled.
- `getVIPProfile`'s query by number is a store lookup. The model covers the number it asks for (`NotionLib.ParseProfileId`) and the record it builds (`NotionLib.VipProfileOf`), but not the lookup itself.
- Descriptions and labels: the Arabic description strings of `calculatePrice` (with `toLocaleString`) and the price list's names and descriptions are left out. The timeline's Arabic labels are modelled.
- The vocabulary maps are plain lookups: keys inherited from `Object.prototype` (such as `constructor`) are not modelled.
- Request fields are assumed to have the types the handlers expect. The model does not cover non-numeric query strings, `parseInt` of non-digits, floating-point operands, or a numeric `sort` or `search`.
- Numbers are unbounded integers: overflow past 2^53 and the rounding of large floating-point products are not modelled.
- Case mapping is ASCII only; `toLowerCase`/`toUpperCase` of other scripts are not modelled.
- `Counters`: JavaScript objects list integer-like keys first; the model keeps keys in first-seen order.
- `Pricing.ApplyDiscount`: the percentage discount is computed in exact arithmetic as total × value / 100 rounded half up. The source computes `Math.round(total * (discountValue / 100))` in binary floating point, where `discountValue / 100` is inexact and the product can fall just below a half. For total 50 at 29 % the source computes 14.499999999999998 and gives 14, while the model gives 15; (25, 58), (45, 70), (90, 35) and (150, 41) differ in the same way. For those inputs the exact-rounding clause of the contract does not describe the source; the source's result is still within one IQD of total × value / 100.
- `AdminRoutes.SortByOrders`: the model proves the result is sorted and a permutation, not which order ties keep (the source relies on the engine's stable sort).
- `OrderRoutes.HandleCreate`: a failing notes update after the folders are created is not told apart from a folder failure; both are caught and the reply is the same.
- `OrderRoutes.ListOrdersPage`, `AdminRoutes.CustomersPageShape` and `ProjectsRoute.ProjectsPageShape` require a page ≥ 1 and a non-negative limit. The handlers themselves accept any values and are modelled for all of them.
- `NotionLib.ExtractSelect` reads `select` only: the portal reads Status, Payment Status and Language as select properties, so on a page where they are status or multi-select columns it returns `''`. This is modelled as written.
- Error middleware, webhooks, the generative-AI service, document upload and the UI are outside this model.

## Observations

- Every list the portal and the back office build from a query reads one page and follows no cursor. `getProjects` asks for 100 (`lib/notion.js` line 167), so `getStats` and the project list cover at most a profile's 100 newest projects, and with more the active and completed counts undercount (`NotionLib.StatsSeeOnePage`, `ProjectsRoute.ProjectsSeeOneStorePage`). `getStatistics` reads 100 orders of the period (`NotionService.StatisticsSeeOneStorePage`). The dashboard and the customers report read the 100 newest orders (`AdminRoutes.DashboardSeesOneStorePage`, `AdminRoutes.CustomersSeeOneStorePage`). `getOrdersByPhone` sets no page size, so the store's default page applies: `GET /orders` and `GET /admin/customers/:phone` work on one page of the phone's orders, which the model takes as the handler's parameter.
- The price check (`POST /calculate-price`) passes the body to the calculator unchanged. Creation replaces falsy page, document and insurance counts with 1. So an explicit 0 can be quoted differently by the two (`OrderRoutes.PriceCheckZeroPages`).
- The dashboard's `totalActive` adds unpaid orders to orders in translation or awaiting delivery, so one order can count twice (`AdminRoutes.OverviewCountsOneOrderTwice`).
- A non-admin caller whose phone is missing can open only an order with no Phone column at all, because `undefined === undefined`. An order with an empty phone reads as null and matches no customer (`OrderRoutes.AccessRule`).
