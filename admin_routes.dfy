/**
 * The administrator routes: every one sits behind the admin gate. Besides
 * passing updates through, they validate the status vocabulary, assemble
 * payment updates, count orders for the dashboard and group orders into
 * customers by phone number.
 */
module AdminRoutes {
  import opened Js
  import opened NotionData
  import opened NotionService
  import opened Lifecycle
  import opened Api
  import opened OrderRoutes
  import Counters

  // ---------------------------------------------------------------------
  // requireAdmin
  // ---------------------------------------------------------------------

  /** `router.use(requireAdmin)`: a non-admin is answered 403 before the
      handler runs, so none of its writes happen. */
  function Gate<T>(caller: Caller, handler: Handled<T>): Handled<T> {
    if !caller.isAdmin then Handled(Fail(AdminRequired), []) else handler
  }

  // ---------------------------------------------------------------------
  // GET /dashboard: the overview counts
  // ---------------------------------------------------------------------

  /** `orders.filter(o => o.paymentStatus === s)` */
  function WithPaymentStatus(orders: seq<Order>, s: string): (r: seq<Order>)
    ensures |r| <= |orders|
    ensures forall o :: o in r <==> o in orders && o.paymentStatus == Some(s)
  {
    if orders == [] then []
    else (if orders[0].paymentStatus == Some(s) then [orders[0]] else []) + WithPaymentStatus(orders[1..], s)
  }

  datatype Overview = Overview(pendingPayments: nat, inProgress: nat, awaitingDelivery: nat, totalActive: nat)

  function OverviewOf(orders: seq<Order>): Overview {
    var pending := |WithPaymentStatus(orders, "Not Paid")|;
    var inProgress := |WithStatus(orders, "Translation")|;
    var awaiting := |WithStatus(orders, "Delivery and Payment")|;
    Overview(pending, inProgress, awaiting, pending + inProgress + awaiting)
  }

  datatype Dashboard = Dashboard(
    todayOrders: nat, todayRevenue: int, monthOrders: nat, monthRevenue: int, overview: Overview,
    byStatus: seq<Counters.Bucket>, byService: seq<Counters.Bucket>, byChannel: seq<Counters.Bucket>)

  /** The dashboard over the day's and the month's statistics and the first
      page of all orders, which the store supplies. */
  function HandleDashboard(caller: Caller, today: Statistics, month: Statistics, all: seq<Order>): Handled<Dashboard> {
    Gate(caller, Handled(Ok(200, Dashboard(today.totalOrders, today.totalRevenue, month.totalOrders, month.totalRevenue,
      OverviewOf(all), month.byStatus, month.byService, month.byChannel)), []))
  }

  /** `getOrders({}, { pageSize: 100 })`, as the dashboard and the
      customers report ask: every order, newest first, one page of 100. */
  function AllOrdersQuery(): OrdersQuery {
    OrdersQueryOf(OrderFilters(None, None, None, None), Pagination(Some(100), None))
  }

  /** The dashboard's overview covers one page of the newest 100 orders,
      whatever the store holds: each stage count is at most 100 and the
      active total at most 200. */
  lemma DashboardSeesOneStorePage(matching: seq<Order>)
    ensures AllOrdersQuery() == OrdersQuery(100, None, None)
    ensures var v := OverviewOf(FirstPage(matching, 100));
      && v.pendingPayments <= 100 && v.inProgress + v.awaitingDelivery <= 100 && v.totalActive <= 200
  {
    OverviewTotals(FirstPage(matching, 100));
  }

  /** Orders of two different statuses are counted apart: together they are
      never more than all orders. */
  lemma {:induction false} DistinctStatusesCountApart(orders: seq<Order>, a: string, b: string)
    requires a != b
    ensures |WithStatus(orders, a)| + |WithStatus(orders, b)| <= |orders|
    decreases |orders|
  {
    if orders != [] {
      DistinctStatusesCountApart(orders[1..], a, b);
    }
  }

  /** The active total is the sum of the three counts; the two stage counts
      are disjoint, but an unpaid order in one of those stages is counted
      twice, so the total may exceed the number of orders it covers. */
  lemma OverviewTotals(orders: seq<Order>)
    ensures var v := OverviewOf(orders);
      && v.totalActive == v.pendingPayments + v.inProgress + v.awaitingDelivery
      && v.inProgress + v.awaitingDelivery <= |orders|
      && v.pendingPayments <= |orders|
      && v.totalActive <= 2 * |orders|
  {
    DistinctStatusesCountApart(orders, "Translation", "Delivery and Payment");
  }

  /** One unpaid order in translation gives an active total of 2. */
  lemma OverviewCountsOneOrderTwice(o: Order)
    requires o.status == Some("Translation") && o.paymentStatus == Some("Not Paid")
    ensures OverviewOf([o]).totalActive == 2
  {
    assert WithPaymentStatus([o], "Not Paid") == [o];
    assert WithStatus([o], "Translation") == [o];
    assert WithStatus([o], "Delivery and Payment") == [];
  }

  // ---------------------------------------------------------------------
  // GET /orders, PUT /orders/:id
  // ---------------------------------------------------------------------

  datatype AdminOrdersQuery = AdminOrdersQuery(
    status: Option<string>, paymentStatus: Option<string>, dateFrom: Option<string>, dateTo: Option<string>,
    limit: Option<int>, cursor: Option<string>)

  function KeepTruthy(s: Option<string>): Option<string> {
    if StrTruthy(s) then s else None
  }

  /** The `filters` object: only the truthy query fields. */
  function AdminFilters(q: AdminOrdersQuery): OrderFilters {
    OrderFilters(KeepTruthy(q.status), KeepTruthy(q.paymentStatus), KeepTruthy(q.dateFrom), KeepTruthy(q.dateTo))
  }

  /** `{ pageSize: parseInt(limit), cursor }` with `limit` defaulting to 50. */
  function AdminPagination(q: AdminOrdersQuery): Pagination {
    Pagination(Some(Default(q.limit, 50)), q.cursor)
  }

  function HandleAdminOrders(caller: Caller, q: AdminOrdersQuery): Handled<OrdersQuery> {
    Gate(caller, Handled(Ok(200, OrdersQueryOf(AdminFilters(q), AdminPagination(q))), []))
  }

  /** The store is asked for 50 orders by default and for `limit` orders
      otherwise, except that a limit of 0 becomes the service's 20; the
      conditions are those of the truthy query fields. */
  lemma AdminOrdersQueryShape(q: AdminOrdersQuery)
    ensures var r := OrdersQueryOf(AdminFilters(q), AdminPagination(q));
      && r.pageSize == (if q.limit.None? then 50 else if q.limit == Some(0) then 20 else q.limit.value)
      && Conditions(AdminFilters(q)) == Conditions(OrderFilters(q.status, q.paymentStatus, q.dateFrom, q.dateTo))
      && (StrTruthy(q.status) ==> StatusEquals(q.status.value) in Conditions(AdminFilters(q)))
  {
    ConditionsForTruthyFilters(AdminFilters(q), StrOr(q.status, ""));
  }

  /** An administrator's update reaches the store untouched. */
  function HandleAdminUpdate(caller: Caller, id: string, updates: map<string, Json>): Handled<Updated> {
    Gate(caller, Handled(Ok(200, Updated(id)), [SaveUpdate(id, updates)]))
  }

  // ---------------------------------------------------------------------
  // POST /orders/:id/status
  // ---------------------------------------------------------------------

  /** `validStatuses.includes(status)`: only a string among the six names
      is accepted. */
  predicate IsValidStatus(status: Option<Json>) {
    status.Some? && status.value.JStr? && status.value.s in ValidStatuses
  }

  function HandleSetStatus(caller: Caller, id: string, status: Option<Json>): Handled<Updated> {
    Gate(caller,
      if !IsValidStatus(status) then Handled(Fail(InvalidStatus), [])
      else Handled(Ok(200, Updated(id)), [SaveUpdate(id, map["status" := status.value])]))
  }

  /** A status is set exactly when it names one of the five stages or Lost;
      otherwise the reply is 400 and nothing is written. What is written is
      that status and nothing else. */
  lemma SetStatusVocabulary(caller: Caller, id: string, status: Option<Json>)
    requires caller.isAdmin
    ensures var h := HandleSetStatus(caller, id, status);
      && (h.reply.Ok? <==> (status.Some? && status.value.JStr? && ParseStatus(status.value.s).Some?))
      && (h.reply.Fail? ==> h.reply.failure == InvalidStatus && h.effects == [])
      && (h.reply.Ok? ==>
            var p := UpdateProperties(h.effects[0].updates);
            && |h.effects| == 1
            && p.status == status && p.paymentStatus.None? && p.paymentMethod.None?
            && p.finalQuotation.None? && p.notes.None? && p.translationTime.None? && p.deadline.None?)
  {
    if status.Some? && status.value.JStr? {
      ValidStatusesAreTheStatuses(status.value.s);
    }
    if IsValidStatus(status) {
      var u := map["status" := status.value];
      assert status.value.s != "" by {
        assert ParseStatus(status.value.s).Some? by {
          ValidStatusesAreTheStatuses(status.value.s);
        }
      }
      assert "paymentStatus" !in u && "paymentMethod" !in u && "finalQuotation" !in u;
      assert "notes" !in u && "translationTime" !in u && "deadline" !in u;
    }
  }

  // ---------------------------------------------------------------------
  // POST /orders/:id/payment
  // ---------------------------------------------------------------------

  /** The payment update: each field given as truthy, and nothing else. */
  function PaymentUpdates(paymentStatus: Option<Json>, paymentMethod: Option<Json>): map<string, Json> {
    var withStatus := if paymentStatus.Some? && Truthy(paymentStatus.value)
      then map["paymentStatus" := paymentStatus.value] else map[];
    if paymentMethod.Some? && Truthy(paymentMethod.value)
    then withStatus["paymentMethod" := paymentMethod.value] else withStatus
  }

  /** `const updates = {}; if (paymentStatus) ...; if (paymentMethod) ...` */
  method BuildPaymentUpdates(paymentStatus: Option<Json>, paymentMethod: Option<Json>) returns (updates: map<string, Json>)
    ensures updates == PaymentUpdates(paymentStatus, paymentMethod)
  {
    updates := map[];
    if paymentStatus.Some? && Truthy(paymentStatus.value) {
      updates := updates["paymentStatus" := paymentStatus.value];
    }
    if paymentMethod.Some? && Truthy(paymentMethod.value) {
      updates := updates["paymentMethod" := paymentMethod.value];
    }
  }

  /** The update holds a key exactly for each truthy field, with its value;
      with neither it is empty. Through the service mapping it can write
      only the payment status and method. */
  lemma PaymentUpdatesContents(paymentStatus: Option<Json>, paymentMethod: Option<Json>)
    ensures var u := PaymentUpdates(paymentStatus, paymentMethod);
      && (forall k :: k in u <==>
            (k == "paymentStatus" && paymentStatus.Some? && Truthy(paymentStatus.value))
            || (k == "paymentMethod" && paymentMethod.Some? && Truthy(paymentMethod.value)))
      && ("paymentStatus" in u ==> u["paymentStatus"] == paymentStatus.value)
      && ("paymentMethod" in u ==> u["paymentMethod"] == paymentMethod.value)
      && ((paymentStatus.None? || !Truthy(paymentStatus.value)) && (paymentMethod.None? || !Truthy(paymentMethod.value)) ==> u == map[])
      && var p := UpdateProperties(u);
         p.status.None? && p.finalQuotation.None? && p.notes.None? && p.translationTime.None? && p.deadline.None?
  {
  }

  function HandlePayment(caller: Caller, id: string, paymentStatus: Option<Json>, paymentMethod: Option<Json>): Handled<Updated> {
    Gate(caller, Handled(Ok(200, Updated(id)), [SaveUpdate(id, PaymentUpdates(paymentStatus, paymentMethod))]))
  }

  // ---------------------------------------------------------------------
  // GET /customers: grouping by phone
  // ---------------------------------------------------------------------

  datatype Customer = Customer(phone: string, name: string, status: Option<string>, totalOrders: nat, totalSpent: int, lastOrder: int)

  /** The entry created for a phone seen for the first time. */
  function Fresh(o: Order): Customer
    requires NullableTruthy(o.phone)
  {
    Customer(o.phone.value, o.customerName, o.customerStatus, 0, 0, o.createdAt)
  }

  /** Counting one more order into a customer's entry. */
  function Touch(c: Customer, o: Order): Customer {
    c.(totalOrders := c.totalOrders + 1, totalSpent := c.totalSpent + o.finalQuotation,
       lastOrder := if o.createdAt > c.lastOrder then o.createdAt else c.lastOrder)
  }

  /** The position of `phone` among the entries, or -1: `customerMap.has`
      and `customerMap.get`. */
  function Find(cs: seq<Customer>, phone: string): (i: int)
    ensures -1 <= i < |cs|
    ensures i >= 0 ==> cs[i].phone == phone
    ensures i == -1 <==> forall j :: 0 <= j < |cs| ==> cs[j].phone != phone
  {
    if cs == [] then -1
    else var i := Find(cs[..|cs| - 1], phone); if i >= 0 then i else if cs[|cs| - 1].phone == phone then |cs| - 1 else -1
  }

  /** One step of the `forEach`: an order without a phone is skipped. */
  function AddOrder(cs: seq<Customer>, o: Order): seq<Customer> {
    if !NullableTruthy(o.phone) then cs
    else
      var i := Find(cs, o.phone.value);
      if i == -1 then cs + [Touch(Fresh(o), o)] else cs[i := Touch(cs[i], o)]
  }

  /** The customer entries in the map's insertion order. */
  function GroupCustomers(orders: seq<Order>): seq<Customer> {
    if orders == [] then [] else AddOrder(GroupCustomers(orders[..|orders| - 1]), orders[|orders| - 1])
  }

  /** The grouping loop, with the map lookup as a search over the entries. */
  method GroupByPhone(orders: seq<Order>) returns (customers: seq<Customer>)
    ensures customers == GroupCustomers(orders)
  {
    customers := [];
    var n := 0;
    while n < |orders|
      invariant 0 <= n <= |orders|
      invariant customers == GroupCustomers(orders[..n])
    {
      var order := orders[n];
      assert orders[..n + 1][..n] == orders[..n];
      if NullableTruthy(order.phone) {
        var phone := order.phone.value;
        var i := FindCustomer(customers, phone);
        if i == -1 {
          customers := customers + [Fresh(order)];
          i := |customers| - 1;
        }
        customers := customers[i := Touch(customers[i], order)];
      }
      n := n + 1;
    }
    assert orders[..n] == orders;
  }

  /** `customerMap.has(phone)` as a search from the front. */
  method FindCustomer(cs: seq<Customer>, phone: string) returns (i: int)
    ensures i == Find(cs, phone)
  {
    i := 0;
    while i < |cs| && cs[i].phone != phone
      invariant 0 <= i <= |cs|
      invariant forall j :: 0 <= j < i ==> cs[j].phone != phone
    {
      i := i + 1;
    }
    if i == |cs| {
      i := -1;
    } else {
      FindIsFirst(cs, phone, i);
    }
  }

  lemma {:induction false} FindIsFirst(cs: seq<Customer>, phone: string, i: int)
    requires 0 <= i < |cs| && cs[i].phone == phone
    requires forall j :: 0 <= j < i ==> cs[j].phone != phone
    ensures Find(cs, phone) == i
    decreases |cs|
  {
    if i < |cs| - 1 {
      FindIsFirst(cs[..|cs| - 1], phone, i);
    }
  }

  // The specification of an entry: what the orders of one phone add up to.

  /** The orders carrying `phone`, in order. */
  function OrdersOf(orders: seq<Order>, phone: string): (r: seq<Order>)
    ensures |r| <= |orders|
  {
    if orders == [] then []
    else OrdersOf(orders[..|orders| - 1], phone) + (if orders[|orders| - 1].phone == Present(phone) then [orders[|orders| - 1]] else [])
  }

  /** The latest creation time among the orders. */
  function LatestCreated(os: seq<Order>): int
    requires os != []
  {
    if |os| == 1 then os[0].createdAt
    else var m := LatestCreated(os[..|os| - 1]); if os[|os| - 1].createdAt > m then os[|os| - 1].createdAt else m
  }

  /** The entry the orders `os` of one phone produce: name and status from
      the first, the count, the sum of quotations and the latest date. */
  function CustomerOf(phone: string, os: seq<Order>): Customer
    requires os != []
  {
    Customer(phone, os[0].customerName, os[0].customerStatus, |os|, Revenue(os), LatestCreated(os))
  }

  predicate DistinctPhones(cs: seq<Customer>) {
    forall i, j :: 0 <= i < j < |cs| ==> cs[i].phone != cs[j].phone
  }

  /** The invariant of the grouping: distinct non-empty phones, each entry
      summarising exactly that phone's orders, and an entry for every phone
      that occurs. */
  ghost predicate Grouped(cs: seq<Customer>, orders: seq<Order>) {
    && DistinctPhones(cs)
    && (forall i :: 0 <= i < |cs| ==>
          (cs[i].phone != "" && OrdersOf(orders, cs[i].phone) != []
           && cs[i] == CustomerOf(cs[i].phone, OrdersOf(orders, cs[i].phone))))
    && (forall p :: p != "" && OrdersOf(orders, p) != [] ==> Find(cs, p) >= 0)
  }

  lemma CustomerOfSnoc(phone: string, os: seq<Order>, o: Order)
    requires os != []
    ensures CustomerOf(phone, os + [o]) == Touch(CustomerOf(phone, os), o)
  {
    assert (os + [o])[..|os|] == os;
  }

  lemma CustomerOfSingle(o: Order)
    requires NullableTruthy(o.phone)
    ensures CustomerOf(o.phone.value, [o]) == Touch(Fresh(o), o)
  {
    assert [o][..0] == [];
    assert Revenue([o]) == o.finalQuotation;
    assert LatestCreated([o]) == o.createdAt;
  }

  lemma OrdersOfSnoc(orders: seq<Order>, o: Order, phone: string)
    ensures OrdersOf(orders + [o], phone) == OrdersOf(orders, phone) + (if o.phone == Present(phone) then [o] else [])
  {
    assert (orders + [o])[..|orders|] == orders;
  }

  /** An order without a phone changes neither the entries nor any phone's
      orders. */
  lemma GroupedSkip(cs: seq<Customer>, orders: seq<Order>, o: Order)
    requires Grouped(cs, orders) && !NullableTruthy(o.phone)
    ensures Grouped(cs, orders + [o])
  {
    forall p | p != "" ensures OrdersOf(orders + [o], p) == OrdersOf(orders, p) {
      OrdersOfSnoc(orders, o, p);
    }
  }

  /** The first order of a phone appends its entry. */
  lemma GroupedNew(cs: seq<Customer>, orders: seq<Order>, o: Order)
    requires Grouped(cs, orders) && NullableTruthy(o.phone) && Find(cs, o.phone.value) == -1
    ensures Grouped(cs + [Touch(Fresh(o), o)], orders + [o])
  {
    var phone := o.phone.value;
    var cs' := cs + [Touch(Fresh(o), o)];
    var orders' := orders + [o];
    forall p | p != "" ensures OrdersOf(orders', p) == OrdersOf(orders, p) + (if p == phone then [o] else []) {
      OrdersOfSnoc(orders, o, p);
    }
    assert OrdersOf(orders, phone) == [];
    CustomerOfSingle(o);
    forall i | 0 <= i < |cs| ensures cs[i].phone != phone {
    }
    forall i | 0 <= i < |cs'|
      ensures cs'[i].phone != "" && OrdersOf(orders', cs'[i].phone) != []
      ensures cs'[i] == CustomerOf(cs'[i].phone, OrdersOf(orders', cs'[i].phone))
    {
      if i < |cs| {
        assert cs'[i] == cs[i];
        assert OrdersOf(orders', cs[i].phone) == OrdersOf(orders, cs[i].phone);
      } else {
        assert OrdersOf(orders', phone) == [o];
      }
    }
    assert DistinctPhones(cs') by {
      forall i, j | 0 <= i < j < |cs'| ensures cs'[i].phone != cs'[j].phone {
        assert cs'[i] == cs[i];
        if j < |cs| {
          assert cs'[j] == cs[j];
        }
      }
    }
    forall p | p != "" && OrdersOf(orders', p) != []
      ensures Find(cs', p) >= 0
    {
      if p != phone {
        var k := Find(cs, p);
        assert cs'[k].phone == p;
      } else {
        assert cs'[|cs|].phone == p;
      }
    }
  }

  /** A further order of a known phone updates that entry in place. */
  lemma GroupedExisting(cs: seq<Customer>, orders: seq<Order>, o: Order)
    requires Grouped(cs, orders) && NullableTruthy(o.phone) && Find(cs, o.phone.value) >= 0
    ensures var i := Find(cs, o.phone.value); Grouped(cs[i := Touch(cs[i], o)], orders + [o])
  {
    var phone := o.phone.value;
    var i := Find(cs, phone);
    var cs' := cs[i := Touch(cs[i], o)];
    var orders' := orders + [o];
    forall p | p != "" ensures OrdersOf(orders', p) == OrdersOf(orders, p) + (if p == phone then [o] else []) {
      OrdersOfSnoc(orders, o, p);
    }
    CustomerOfSnoc(phone, OrdersOf(orders, phone), o);
    forall j | 0 <= j < |cs'|
      ensures cs'[j].phone != "" && OrdersOf(orders', cs'[j].phone) != []
      ensures cs'[j] == CustomerOf(cs'[j].phone, OrdersOf(orders', cs'[j].phone))
    {
      if j != i {
        assert cs'[j] == cs[j] && cs[j].phone != phone;
        assert OrdersOf(orders', cs[j].phone) == OrdersOf(orders, cs[j].phone);
      }
    }
    assert DistinctPhones(cs') by {
      forall j, k | 0 <= j < k < |cs'| ensures cs'[j].phone != cs'[k].phone {
        assert cs'[j].phone == cs[j].phone && cs'[k].phone == cs[k].phone;
      }
    }
    forall p | p != "" && OrdersOf(orders', p) != []
      ensures Find(cs', p) >= 0
    {
      if p != phone {
        var k := Find(cs, p);
        assert cs'[k].phone == p;
      } else {
        assert cs'[i].phone == p;
      }
    }
  }

  lemma GroupedStep(cs: seq<Customer>, orders: seq<Order>, o: Order)
    requires Grouped(cs, orders)
    ensures Grouped(AddOrder(cs, o), orders + [o])
  {
    if !NullableTruthy(o.phone) {
      GroupedSkip(cs, orders, o);
    } else if Find(cs, o.phone.value) == -1 {
      GroupedNew(cs, orders, o);
    } else {
      GroupedExisting(cs, orders, o);
    }
  }

  lemma {:induction false} GroupCustomersGrouped(orders: seq<Order>)
    ensures Grouped(GroupCustomers(orders), orders)
    decreases |orders|
  {
    if orders != [] {
      var front := orders[..|orders| - 1];
      GroupCustomersGrouped(front);
      assert front + [orders[|orders| - 1]] == orders;
      GroupedStep(GroupCustomers(front), front, orders[|orders| - 1]);
    }
  }

  /** Orders without a phone are skipped; there is one entry per distinct
      phone that occurs; each entry's count, total spent and last order
      date are those of that phone's orders, and its name and status are
      taken from the first of them. */
  lemma CustomerGrouping(orders: seq<Order>, p: string)
    ensures DistinctPhones(GroupCustomers(orders))
    ensures p != "" ==> (Find(GroupCustomers(orders), p) >= 0 <==> OrdersOf(orders, p) != [])
    ensures var cs := GroupCustomers(orders);
      var i := Find(cs, p);
      i >= 0 ==>
        var os := OrdersOf(orders, p);
        && os != []
        && cs[i].totalOrders == |os|
        && cs[i].totalSpent == Revenue(os)
        && cs[i].lastOrder == LatestCreated(os)
        && cs[i].name == os[0].customerName && cs[i].status == os[0].customerStatus
  {
    GroupCustomersGrouped(orders);
  }

  /** The latest date is one of the orders' and no order is later. */
  lemma {:induction false} LatestCreatedIsMaximum(os: seq<Order>)
    requires os != []
    ensures exists k :: 0 <= k < |os| && os[k].createdAt == LatestCreated(os)
    ensures forall k :: 0 <= k < |os| ==> os[k].createdAt <= LatestCreated(os)
    decreases |os|
  {
    if |os| == 1 {
      assert os[0].createdAt == LatestCreated(os);
    } else {
      var front := os[..|os| - 1];
      LatestCreatedIsMaximum(front);
      var k :| 0 <= k < |front| && front[k].createdAt == LatestCreated(front);
      forall j | 0 <= j < |os| - 1 ensures os[j].createdAt <= LatestCreated(os) {
        assert os[j] == front[j];
      }
      if os[|os| - 1].createdAt > LatestCreated(front) {
        assert os[|os| - 1].createdAt == LatestCreated(os);
      } else {
        assert os[k] == front[k];
        assert os[k].createdAt == LatestCreated(os);
      }
    }
  }

  /** The number of orders that have a phone. */
  function PhonedCount(orders: seq<Order>): nat {
    if orders == [] then 0
    else PhonedCount(orders[..|orders| - 1]) + (if NullableTruthy(orders[|orders| - 1].phone) then 1 else 0)
  }

  function TotalOrders(cs: seq<Customer>): nat {
    if cs == [] then 0 else TotalOrders(cs[..|cs| - 1]) + cs[|cs| - 1].totalOrders
  }

  lemma {:induction false} TotalOrdersUpdate(cs: seq<Customer>, i: int, c: Customer)
    requires 0 <= i < |cs|
    ensures TotalOrders(cs[i := c]) == TotalOrders(cs) - cs[i].totalOrders + c.totalOrders
    decreases |cs|
  {
    var n := |cs|;
    if i < n - 1 {
      assert cs[i := c][..n - 1] == cs[..n - 1][i := c];
      TotalOrdersUpdate(cs[..n - 1], i, c);
    } else {
      assert cs[i := c][..n - 1] == cs[..n - 1];
    }
  }

  /** The entries' order counts add up to the number of orders with a
      phone. */
  lemma {:induction false} CustomerTotalsCoverPhonedOrders(orders: seq<Order>)
    ensures TotalOrders(GroupCustomers(orders)) == PhonedCount(orders)
    decreases |orders|
  {
    if orders != [] {
      var front := orders[..|orders| - 1];
      var o := orders[|orders| - 1];
      CustomerTotalsCoverPhonedOrders(front);
      var cs := GroupCustomers(front);
      if NullableTruthy(o.phone) {
        var i := Find(cs, o.phone.value);
        if i == -1 {
          assert (cs + [Touch(Fresh(o), o)])[..|cs|] == cs;
        } else {
          TotalOrdersUpdate(cs, i, Touch(cs[i], o));
        }
      }
    }
  }

  /** There are never more customer entries than orders. */
  lemma {:induction false} GroupAtMostOrders(orders: seq<Order>)
    ensures |GroupCustomers(orders)| <= |orders|
    decreases |orders|
  {
    if orders != [] {
      GroupAtMostOrders(orders[..|orders| - 1]);
    }
  }

  // Sorting by number of orders, most first.

  /** Places `c` before the first entry with no more orders than it. */
  function Insert(c: Customer, sorted: seq<Customer>): (r: seq<Customer>)
    ensures multiset(r) == multiset(sorted) + multiset{c}
    ensures |r| == |sorted| + 1
    ensures forall x :: x in r <==> x in sorted || x == c
  {
    if sorted == [] || sorted[0].totalOrders <= c.totalOrders then [c] + sorted
    else
      assert sorted == [sorted[0]] + sorted[1..];
      [sorted[0]] + Insert(c, sorted[1..])
  }

  predicate SortedByOrders(cs: seq<Customer>) {
    forall i, j :: 0 <= i < j < |cs| ==> cs[i].totalOrders >= cs[j].totalOrders
  }

  /** An entry ahead of all of a sorted list keeps it sorted. */
  lemma ConsSorted(x: Customer, tail: seq<Customer>)
    requires SortedByOrders(tail)
    requires forall y :: y in tail ==> x.totalOrders >= y.totalOrders
    ensures SortedByOrders([x] + tail)
  {
    var r := [x] + tail;
    forall i, j | 0 <= i < j < |r| ensures r[i].totalOrders >= r[j].totalOrders {
      assert r[j] == tail[j - 1];
      if i > 0 {
        assert r[i] == tail[i - 1];
      } else {
        assert tail[j - 1] in tail;
      }
    }
  }

  lemma {:induction false} InsertSorted(c: Customer, sorted: seq<Customer>)
    requires SortedByOrders(sorted)
    ensures SortedByOrders(Insert(c, sorted))
    decreases |sorted|
  {
    if sorted == [] || sorted[0].totalOrders <= c.totalOrders {
      forall y | y in sorted ensures c.totalOrders >= y.totalOrders {
        var k :| 0 <= k < |sorted| && sorted[k] == y;
        assert sorted[0].totalOrders >= sorted[k].totalOrders || k == 0;
      }
      ConsSorted(c, sorted);
    } else {
      var rest := sorted[1..];
      assert SortedByOrders(rest) by {
        forall i, j | 0 <= i < j < |rest| ensures rest[i].totalOrders >= rest[j].totalOrders {
          assert rest[i] == sorted[i + 1] && rest[j] == sorted[j + 1];
        }
      }
      InsertSorted(c, rest);
      forall y | y in Insert(c, rest) ensures sorted[0].totalOrders >= y.totalOrders {
        if y != c {
          var k :| 0 <= k < |rest| && rest[k] == y;
          assert sorted[k + 1] == y;
        }
      }
      ConsSorted(sorted[0], Insert(c, rest));
    }
  }

  /** `.sort((a, b) => b.totalOrders - a.totalOrders)` */
  function SortByOrders(cs: seq<Customer>): (r: seq<Customer>)
    ensures multiset(r) == multiset(cs)
    ensures |r| == |cs|
  {
    if cs == [] then [] else
      assert cs == [cs[0]] + cs[1..];
      Insert(cs[0], SortByOrders(cs[1..]))
  }

  /** The customer list is ordered by number of orders, most first, and
      holds the same entries. */
  lemma {:induction false} SortByOrdersSorted(cs: seq<Customer>)
    ensures SortedByOrders(SortByOrders(cs))
    ensures multiset(SortByOrders(cs)) == multiset(cs)
    decreases |cs|
  {
    if cs != [] {
      SortByOrdersSorted(cs[1..]);
      InsertSorted(cs[0], SortByOrders(cs[1..]));
    }
  }

  datatype CustomersQuery = CustomersQuery(page: Option<int>, limit: Option<int>)

  datatype CustomerPage = CustomerPage(customers: seq<Customer>, total: nat, page: int, limit: int, pages: JsNumber)

  /** One page of the sorted customer list; `page` and `limit` default
      to 1 and 50. */
  function CustomerPageOf(sorted: seq<Customer>, q: CustomersQuery): CustomerPage {
    var page, limit := Default(q.page, 1), Default(q.limit, 50);
    var start := PageStart(page, limit);
    CustomerPage(Slice(sorted, start, start + limit), |sorted|, page, limit, CeilDiv(|sorted|, limit))
  }

  /** The customers route over the first page of all orders. */
  function CustomersOf(orders: seq<Order>, q: CustomersQuery): CustomerPage {
    CustomerPageOf(SortByOrders(GroupCustomers(orders)), q)
  }

  /** The customer list is built from one unfiltered page of the newest
      100 orders, so it never lists more than 100 customers, whatever the
      store holds. */
  lemma CustomersSeeOneStorePage(matching: seq<Order>, q: CustomersQuery)
    ensures AllOrdersQuery() == OrdersQuery(100, None, None)
    ensures CustomersOf(FirstPage(matching, 100), q).total <= 100
  {
    GroupAtMostOrders(FirstPage(matching, 100));
  }

  function HandleCustomers(caller: Caller, orders: seq<Order>, q: CustomersQuery): Handled<CustomerPage> {
    Gate(caller, Handled(Ok(200, CustomersOf(orders, q)), []))
  }

  /** The page is a sorted run of at most `limit` entries, starting at
      `(page - 1) * limit` of the sorted list, and the total is the number
      of distinct phones. */
  lemma CustomersPageShape(orders: seq<Order>, q: CustomersQuery)
    requires Default(q.page, 1) >= 1 && Default(q.limit, 50) >= 0
    ensures var r := CustomersOf(orders, q);
      var sorted := SortByOrders(GroupCustomers(orders));
      var start := PageStart(r.page, r.limit);
      && r.total == |GroupCustomers(orders)|
      && |r.customers| <= r.limit
      && SortedByOrders(r.customers)
      && (start < |sorted| ==> r.customers == sorted[start..if start + r.limit <= |sorted| then start + r.limit else |sorted|])
      && (r.limit > 0 ==> r.pages.Finite? && r.total <= r.pages.n * r.limit)
  {
    var groups := GroupCustomers(orders);
    var sorted := SortByOrders(groups);
    SortByOrdersSorted(groups);
    assert CustomersOf(orders, q) == CustomerPageOf(sorted, q);
    SortedPage(sorted, q);
  }

  lemma SortedPage(sorted: seq<Customer>, q: CustomersQuery)
    requires SortedByOrders(sorted) && Default(q.page, 1) >= 1 && Default(q.limit, 50) >= 0
    ensures var r := CustomerPageOf(sorted, q);
      var start := PageStart(r.page, r.limit);
      && r.total == |sorted|
      && |r.customers| <= r.limit
      && SortedByOrders(r.customers)
      && (start < |sorted| ==> r.customers == sorted[start..if start + r.limit <= |sorted| then start + r.limit else |sorted|])
      && (r.limit > 0 ==> r.pages.Finite? && r.total <= r.pages.n * r.limit)
  {
    var r := CustomerPageOf(sorted, q);
    var start := PageStart(r.page, r.limit);
    SliceWindow(sorted, start, r.limit);
    SortedWindow(sorted, start, r.limit);
  }

  lemma SortedWindow(sorted: seq<Customer>, start: int, len: int)
    requires SortedByOrders(sorted) && start >= 0 && len >= 0
    ensures SortedByOrders(Slice(sorted, start, start + len))
  {
    var w := Slice(sorted, start, start + len);
    SliceWindow(sorted, start, len);
    if start < |sorted| {
      forall i, j | 0 <= i < j < |w| ensures w[i].totalOrders >= w[j].totalOrders {
        assert w[i] == sorted[start + i] && w[j] == sorted[start + j];
      }
    }
  }

  // ---------------------------------------------------------------------
  // GET /customers/:phone
  // ---------------------------------------------------------------------

  datatype CustomerDetail = CustomerDetail(phone: string, name: string, status: Option<string>, totalOrders: nat, totalSpent: int)

  /** The detail over the orders the store returns for `phone`. */
  function CustomerDetailOf(phone: string, orders: seq<Order>): CustomerDetail {
    CustomerDetail(phone,
      if orders != [] && orders[0].customerName != "" then orders[0].customerName else phone,
      if orders != [] then orders[0].customerStatus else None,
      |orders|, Revenue(orders))
  }

  function HandleCustomerDetail(caller: Caller, phone: string, orders: seq<Order>): Handled<CustomerDetail> {
    Gate(caller, Handled(Ok(200, CustomerDetailOf(phone, orders)), []))
  }

  /** When every order returned carries the phone, the detail's count and
      total agree with that customer's entry in the customer list; the name
      falls back to the phone when the first order has none. */
  lemma DetailAgreesWithList(phone: string, orders: seq<Order>)
    requires phone != "" && forall k :: 0 <= k < |orders| ==> orders[k].phone == Present(phone)
    ensures var d := CustomerDetailOf(phone, orders);
      var cs := GroupCustomers(orders);
      && (orders == [] ==> d.name == phone && d.totalOrders == 0 && d.totalSpent == 0 && cs == [])
      && (orders != [] ==>
            Find(cs, phone) >= 0
            && d.totalOrders == cs[Find(cs, phone)].totalOrders
            && d.totalSpent == cs[Find(cs, phone)].totalSpent
            && d.name == (if cs[Find(cs, phone)].name != "" then cs[Find(cs, phone)].name else phone))
  {
    OrdersOfAll(orders, phone);
    if orders == [] {
    } else {
      CustomerGrouping(orders, phone);
    }
    GroupEmptyWhenNoOrders(orders);
  }

  lemma GroupEmptyWhenNoOrders(orders: seq<Order>)
    ensures orders == [] ==> GroupCustomers(orders) == []
  {
  }

  lemma {:induction false} OrdersOfAll(orders: seq<Order>, phone: string)
    requires forall k :: 0 <= k < |orders| ==> orders[k].phone == Present(phone)
    ensures OrdersOf(orders, phone) == orders
    decreases |orders|
  {
    if orders != [] {
      OrdersOfAll(orders[..|orders| - 1], phone);
      assert orders[..|orders| - 1] + [orders[|orders| - 1]] == orders;
    }
  }

  // ---------------------------------------------------------------------
  // The gate
  // ---------------------------------------------------------------------

  /** A non-administrator is answered 403 by every admin route, and nothing
      is written. */
  lemma EveryAdminRouteRequiresAdmin(caller: Caller, id: string, orders: seq<Order>, today: Statistics, month: Statistics,
                                     q: AdminOrdersQuery, cq: CustomersQuery, updates: map<string, Json>,
                                     status: Option<Json>, paymentStatus: Option<Json>, paymentMethod: Option<Json>, phone: string)
    requires !caller.isAdmin
    ensures HandleDashboard(caller, today, month, orders) == Handled(Fail(AdminRequired), [])
    ensures HandleAdminOrders(caller, q) == Handled(Fail(AdminRequired), [])
    ensures HandleAdminUpdate(caller, id, updates) == Handled(Fail(AdminRequired), [])
    ensures HandleSetStatus(caller, id, status) == Handled(Fail(AdminRequired), [])
    ensures HandlePayment(caller, id, paymentStatus, paymentMethod) == Handled(Fail(AdminRequired), [])
    ensures HandleCustomers(caller, orders, cq) == Handled(Fail(AdminRequired), [])
    ensures HandleCustomerDetail(caller, phone, orders) == Handled(Fail(AdminRequired), [])
    ensures StatusCode(AdminRequired) == 403
  {
  }
}
