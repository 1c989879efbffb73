/**
 * The customer order routes: listing, reading, creating, updating,
 * cancelling, the status timeline and the price check. Each handler is a
 * function of the caller, the request and the records the store returned;
 * the store and file-service writes it issues are part of its outcome.
 */
module OrderRoutes {
  import opened Js
  import opened NotionData
  import opened NotionService
  import opened Pricing
  import opened Lifecycle
  import opened Api

  // ---------------------------------------------------------------------
  // Ownership
  // ---------------------------------------------------------------------

  /** Every route on one order refuses `!req.isAdmin && order.phone !== req.phone`. */
  predicate CanAccess(caller: Caller, order: Order) {
    caller.isAdmin || StrictEquals(order.phone, caller.phone)
  }

  /** A customer reaches exactly the orders carrying their phone number. A
      caller without a phone matches only a page with no Phone property at
      all: an order whose phone field is empty reads as `null`, which is
      not `undefined`. */
  lemma AccessRule(caller: Caller, order: Order)
    requires !caller.isAdmin
    ensures caller.phone.Some? ==> (CanAccess(caller, order) <==> order.phone == Present(caller.phone.value))
    ensures caller.phone.None? ==> (CanAccess(caller, order) <==> order.phone.Undefined?)
    ensures order.phone.Null? ==> !CanAccess(caller, order)
  {
  }

  // ---------------------------------------------------------------------
  // GET /api/orders: filter by status, then one page
  // ---------------------------------------------------------------------

  datatype ListQuery = ListQuery(status: Option<string>, page: Option<int>, limit: Option<int>)

  datatype OrderPage = OrderPage(orders: seq<Order>, total: nat, page: int, limit: int, pages: JsNumber)

  /** `orders.filter(o => o.status === status)` */
  function WithStatus(orders: seq<Order>, s: string): (r: seq<Order>)
    ensures |r| <= |orders|
    ensures forall o :: o in r <==> o in orders && o.status == Some(s)
  {
    if orders == [] then []
    else (if orders[0].status == Some(s) then [orders[0]] else []) + WithStatus(orders[1..], s)
  }

  /** The orders the list shows before paging. */
  function ListedOrders(orders: seq<Order>, q: ListQuery): seq<Order> {
    if StrTruthy(q.status) then WithStatus(orders, q.status.value) else orders
  }

  /** The list route over the caller's orders; `page` and `limit` default
      to 1 and 20. */
  function ListOrders(orders: seq<Order>, q: ListQuery): OrderPage {
    var listed := ListedOrders(orders, q);
    var page, limit := Default(q.page, 1), Default(q.limit, 20);
    var start := PageStart(page, limit);
    OrderPage(Slice(listed, start, start + limit), |listed|, page, limit, CeilDiv(|listed|, limit))
  }

  /** For a page from 1 and a non-negative limit the reply holds the run of
      at most `limit` listed orders starting at `(page - 1) * limit`, all
      with the requested status; the page count covers the total. */
  lemma ListOrdersPage(orders: seq<Order>, q: ListQuery)
    requires Default(q.page, 1) >= 1 && Default(q.limit, 20) >= 0
    ensures var r := ListOrders(orders, q);
      var listed := ListedOrders(orders, q);
      var start := PageStart(r.page, r.limit);
      && r.total == |listed| && |r.orders| <= r.limit
      && (start < |listed| ==> r.orders == listed[start..if start + r.limit <= |listed| then start + r.limit else |listed|])
      && (start >= |listed| ==> r.orders == [])
      && (StrTruthy(q.status) ==> forall o :: o in r.orders ==> o in orders && o.status == q.status)
      && (!StrTruthy(q.status) ==> listed == orders)
      && (r.limit > 0 ==> r.pages.Finite? && r.total <= r.pages.n * r.limit)
  {
    var r := ListOrders(orders, q);
    var listed := ListedOrders(orders, q);
    var start := PageStart(r.page, r.limit);
    SliceWindow(listed, start, r.limit);
    forall o | o in r.orders
      ensures o in listed
    {
      var i :| 0 <= i < |r.orders| && r.orders[i] == o;
      assert o == listed[start + i];
    }
  }

  // ---------------------------------------------------------------------
  // GET /api/orders/:id
  // ---------------------------------------------------------------------

  function GetOrder(caller: Caller, order: Order): (r: Reply<Order>)
    ensures r.Ok? <==> CanAccess(caller, order)
    ensures r.Ok? ==> r == Ok(200, order)
    ensures r.Fail? ==> r.failure == AccessDenied
  {
    if CanAccess(caller, order) then Ok(200, order) else Fail(AccessDenied)
  }

  // ---------------------------------------------------------------------
  // POST /api/orders
  // ---------------------------------------------------------------------

  /** The destructured request body; `None` is an absent field. The
      `address` field is destructured but never used. */
  datatype CreateBody = CreateBody(
    customerName: Option<string>, requestName: Option<string>, serviceType: Option<string>,
    documentTypes: Option<seq<string>>, languages: Option<seq<string>>,
    pages: Option<int>, words: Option<int>, certification: Option<bool>, numDocs: Option<int>,
    insurance: Option<string>, insuranceCount: Option<int>, additionalCopies: Option<int>,
    deliveryMethod: Option<string>, notes: Option<string>, paymentMethod: Option<string>,
    rushTranslation: Option<bool>)

  /** A boolean field that may be absent, in a boolean position. */
  predicate BoolTruthy(b: Option<bool>) {
    b == Some(true)
  }

  /** `docTypeMap[t] || t`: the app's document-type ids become the store's
      names; anything else passes unchanged. */
  function DocTypeName(t: string): string {
    if t == "id-documents" then "ID-sized documents"
    else if t == "certificates" then "Certificates"
    else if t == "official-letters" then "Official letters statements contracts"
    else if t == "power-of-attorney" then "General PoAs"
    else if t == "court-documents" then "Court rulings and similar documents"
    else if t == "medical-reports" then "Medical reports and long-format technical reports"
    else if t == "company-documents" then "Company Documents"
    else t
  }

  /** `deliveryMap[deliveryMethod] || 'Pickup'` */
  function DeliveryName(d: Option<string>): string {
    if d == Some("digital") then "Digital file"
    else if d == Some("delivery") then "Delivery"
    else "Pickup"
  }

  /** `insuranceMap[insurance] || insurance` */
  function InsuranceName(tier: string): string {
    if tier == "31days" then "31 days assurance"
    else if tier == "45days" then "45 days assurance"
    else if tier == "90days" then "90 days assurance"
    else if tier == "1year" then "1 year assurance"
    else tier
  }

  /** `(documentTypes || []).map(t => docTypeMap[t] || t)` */
  function DocTypeNames(ts: seq<string>): (r: seq<string>)
    ensures |r| == |ts|
    ensures forall i :: 0 <= i < |ts| ==> r[i] == DocTypeName(ts[i])
  {
    if ts == [] then [] else [DocTypeName(ts[0])] + DocTypeNames(ts[1..])
  }

  /** The options the create route prices with: the counts given as falsy
      fall back to 1, 1, 1 and 0; the rest is passed as received. */
  function CreatePriceOptions(b: CreateBody): PriceOptions {
    PriceOptions(b.serviceType, Some(IntOr(b.pages, 1)), b.words, BoolTruthy(b.certification),
      Some(IntOr(b.numDocs, 1)), b.insurance, Some(IntOr(b.insuranceCount, 1)),
      Some(IntOr(b.additionalCopies, 0)), b.deliveryMethod, BoolTruthy(b.rushTranslation))
  }

  /** The `orderData` handed to `createOrder`. */
  function CreateOrderData(b: CreateBody, caller: Caller, total: int): OrderData {
    OrderData(
      customerName := if StrTruthy(b.customerName) then b.customerName
                      else if StrTruthy(b.requestName) then b.requestName
                      else caller.phone,
      phone := caller.phone,
      services := Some(["Translation"]),
      languages := Some(Default(b.languages, [DefaultLanguage])),
      documentTypes := Some(DocTypeNames(Default(b.documentTypes, []))),
      pages := Some(IntOr(b.pages, 1)),
      words := Some(IntOr(b.words, 0)),
      certification := Some(BoolTruthy(b.certification)),
      numDocs := Some(IntOr(b.numDocs, 1)),
      totalPrice := Some(total),
      deliveryMethods := Some([DeliveryName(b.deliveryMethod)]),
      notes := Some(StrOr(b.notes, "")),
      channel := Some("App"),
      insurance := Some(if StrTruthy(b.insurance) then [InsuranceName(b.insurance.value)] else []),
      insuranceCount := Some(IntOr(b.insuranceCount, 0)),
      deadline := None,
      paymentMethod := b.paymentMethod,
      customerStatus := Some("First Time - Reg"))
  }

  datatype Created = Created(orderId: string, pricing: Quote)

  /** The create route. `created` is the id of the order the store created
      (`None` when `createOrder` threw); `folderUrl` is the order folder's
      link (`None` when creating the folders threw). */
  function HandleCreate(b: CreateBody, caller: Caller, created: Option<string>, folderUrl: Option<string>): Handled<Created> {
    if !StrTruthy(b.serviceType) then Handled(Fail(ValidationFailed), [])
    else
      var pricing := QuoteOf(CreatePriceOptions(b));
      var data := CreateOrderData(b, caller, pricing.total);
      match created
      case None => Handled(Fail(ServerError), [SaveOrder(data)])
      case Some(id) =>
        var linkNote := if folderUrl.Some?
          then [SaveUpdate(id, map["notes" := JStr(StrOr(b.notes, "") + "\n\nFolder: " + folderUrl.value)])]
          else [];
        Handled(Ok(201, Created(id, pricing)), [SaveOrder(data), MakeFolders(data.customerName, id)] + linkNote)
  }

  /** Without a service type the request is refused before anything is
      priced or written. */
  lemma CreateNeedsServiceType(b: CreateBody, caller: Caller, created: Option<string>, folderUrl: Option<string>)
    ensures var h := HandleCreate(b, caller, created, folderUrl);
      !StrTruthy(b.serviceType) <==> (h.reply == Fail(ValidationFailed) && h.effects == [])
  {
  }

  /** With a service type the order is written first, with the quoted
      total; the folders are asked for only once the store has created the
      order, and whether they could be made does not change the 201. */
  lemma CreateWritesOrderThenFolders(b: CreateBody, caller: Caller, created: Option<string>, folderUrl: Option<string>)
    requires StrTruthy(b.serviceType)
    ensures var h := HandleCreate(b, caller, created, folderUrl);
      var total := QuoteOf(CreatePriceOptions(b)).total;
      && |h.effects| >= 1
      && h.effects[0] == SaveOrder(CreateOrderData(b, caller, total))
      && h.effects[0].data.totalPrice == Some(total)
      && (created.None? ==> h.reply == Fail(ServerError) && |h.effects| == 1)
      && (created.Some? ==>
            (h.reply == Ok(201, Created(created.value, QuoteOf(CreatePriceOptions(b))))
             && h.effects[1] == MakeFolders(h.effects[0].data.customerName, created.value)
             && |h.effects| == (if folderUrl.Some? then 3 else 2)))
      && h.reply == HandleCreate(b, caller, created, None).reply
  {
  }

  /** The UI vocabulary is turned into the store's: known document types
      are renamed and unknown ones kept, a delivery method other than
      digital or delivery becomes Pickup, and insurance is a one-element
      list or empty. */
  lemma CreateVocabulary(b: CreateBody, caller: Caller, total: int)
    ensures var d := CreateOrderData(b, caller, total);
      && d.documentTypes.Some? && |d.documentTypes.value| == |Default(b.documentTypes, [])|
      && (forall i :: 0 <= i < |d.documentTypes.value| ==> d.documentTypes.value[i] == DocTypeName(Default(b.documentTypes, [])[i]))
      && d.deliveryMethods == Some([if b.deliveryMethod == Some("digital") then "Digital file"
                                    else if b.deliveryMethod == Some("delivery") then "Delivery" else "Pickup"])
      && (StrTruthy(b.insurance) ==> d.insurance == Some([InsuranceName(b.insurance.value)]))
      && (!StrTruthy(b.insurance) ==> d.insurance == Some([]))
      && d.customerStatus == Some("First Time - Reg") && d.channel == Some("App")
  {
  }

  lemma DocTypeNamePassesUnknown(t: string)
    ensures (t !in {"id-documents", "certificates", "official-letters", "power-of-attorney",
                    "court-documents", "medical-reports", "company-documents"}) ==> DocTypeName(t) == t
    ensures t == "power-of-attorney" ==> DocTypeName(t) == "General PoAs"
  {
  }

  /** What the store records for a created order agrees with the quote:
      the final quotation is the quoted total, and the page, document and
      insurance counts are those priced, although the route hands
      `insuranceCount || 0` to the service, which stores it `|| 1`. */
  lemma CreatedRecordMatchesQuote(b: CreateBody, caller: Caller)
    ensures var o := CreatePriceOptions(b);
      var q := QuoteOf(o);
      var p := OrderProperties(CreateOrderData(b, caller, q.total));
      && p.finalQuotation == Some(NumberValue(Some(q.total)))
      && p.pageCount == Some(NumberValue(Some(PagesOf(o))))
      && p.numDocs == Some(NumberValue(Some(NumDocsOf(o))))
      && (StrTruthy(b.insurance) ==> p.insuranceCount == Some(NumberValue(Some(InsuranceCountOf(o)))))
      && (!StrTruthy(b.insurance) ==> p.insurance.None? && p.insuranceCount.None?)
  {
    var o := CreatePriceOptions(b);
    var d := CreateOrderData(b, caller, QuoteOf(o).total);
    CreatedOrderRow(d);
    CreatedOrderOptionalFields(d);
  }

  // ---------------------------------------------------------------------
  // PUT /api/orders/:id
  // ---------------------------------------------------------------------

  /** The keys a customer may change. */
  predicate CustomerEditable(key: string) {
    key == "notes" || key == "paymentMethod"
  }

  /** The update a customer's request is reduced to. */
  function CustomerUpdates(u: map<string, Json>): map<string, Json> {
    map k | k in u && CustomerEditable(k) :: u[k]
  }

  /** `Object.keys(updates).forEach(key => { if (!allowed.includes(key)) delete updates[key]; })` */
  method DropDisallowedKeys(updates: map<string, Json>) returns (kept: map<string, Json>)
    ensures kept == CustomerUpdates(updates)
  {
    kept := updates;
    var keys := updates.Keys;
    while keys != {}
      invariant keys <= updates.Keys
      invariant kept.Keys <= updates.Keys
      invariant forall k :: k in updates ==> (k in kept <==> k in keys || CustomerEditable(k))
      invariant forall k :: k in kept ==> kept[k] == updates[k]
      decreases keys
    {
      var k :| k in keys;
      if !CustomerEditable(k) {
        kept := kept - {k};
      }
      keys := keys - {k};
    }
  }

  function HandleUpdate(caller: Caller, id: string, order: Order, updates: map<string, Json>): Handled<Updated> {
    if !CanAccess(caller, order) then Handled(Fail(AccessDenied), [])
    else
      var allowed := if caller.isAdmin then updates else CustomerUpdates(updates);
      Handled(Ok(200, Updated(id)), [SaveUpdate(id, allowed)])
  }

  /** A customer's update keeps its notes and payment method, with their
      values, and silently drops every other key; an administrator's is
      passed on untouched. */
  lemma UpdateAllowList(caller: Caller, id: string, order: Order, updates: map<string, Json>)
    requires CanAccess(caller, order)
    ensures var h := HandleUpdate(caller, id, order, updates);
      && h.reply == Ok(200, Updated(id)) && |h.effects| == 1 && h.effects[0].SaveUpdate?
      && h.effects[0].orderId == id
      && (caller.isAdmin ==> h.effects[0].updates == updates)
      && (!caller.isAdmin ==>
            (forall k :: k in h.effects[0].updates <==> k in updates && (k == "notes" || k == "paymentMethod"))
            && (forall k :: k in h.effects[0].updates ==> h.effects[0].updates[k] == updates[k]))
  {
  }

  /** Through the service's property mapping, a customer can change at most
      the notes and the payment method, exactly as they asked. */
  lemma CustomerUpdateWritesOnlyNotesAndPayment(u: map<string, Json>)
    ensures var p := UpdateProperties(CustomerUpdates(u));
      && p.status.None? && p.paymentStatus.None? && p.finalQuotation.None?
      && p.translationTime.None? && p.deadline.None?
      && p.notes == UpdateProperties(u).notes
      && p.paymentMethod == UpdateProperties(u).paymentMethod
  {
    var c := CustomerUpdates(u);
    assert "status" !in c && "paymentStatus" !in c && "finalQuotation" !in c;
    assert "translationTime" !in c && "deadline" !in c;
    assert ("notes" in c <==> "notes" in u) && ("notes" in c ==> c["notes"] == u["notes"]);
    assert ("paymentMethod" in c <==> "paymentMethod" in u) && ("paymentMethod" in c ==> c["paymentMethod"] == u["paymentMethod"]);
  }

  // ---------------------------------------------------------------------
  // POST /api/orders/:id/cancel
  // ---------------------------------------------------------------------

  /** The update a cancellation issues. */
  function CancelUpdates(order: Order, reason: Option<string>): map<string, Json> {
    map["status" := JStr("Lost"),
        "notes" := JStr(order.notes + "\n\nCancelled: " + StrOr(reason, "No reason provided"))]
  }

  function HandleCancel(caller: Caller, id: string, order: Order, reason: Option<string>): Handled<Updated> {
    if !CanAccess(caller, order) then Handled(Fail(AccessDenied), [])
    else if !Cancellable(order.status) then Handled(Fail(NotCancellable), [])
    else Handled(Ok(200, Updated(id)), [SaveUpdate(id, CancelUpdates(order, reason))])
  }

  /** An order past the new-ticket stage is refused; otherwise it is set to
      Lost and the reason (or 'No reason provided') is appended to its
      notes, and nothing else is written. */
  lemma CancelRule(caller: Caller, id: string, order: Order, reason: Option<string>)
    requires CanAccess(caller, order)
    ensures var h := HandleCancel(caller, id, order, reason);
      && (order.status.Some? && order.status.value in NonCancellable <==> h.reply == Fail(NotCancellable))
      && (h.reply == Fail(NotCancellable) ==> h.effects == [])
      && (h.reply.Ok? ==>
            var p := UpdateProperties(h.effects[0].updates);
            && h.effects == [SaveUpdate(id, h.effects[0].updates)]
            && p.status == Some(JStr("Lost"))
            && p.notes == Some(JStr(order.notes + "\n\nCancelled: " + StrOr(reason, "No reason provided")))
            && p.paymentStatus.None? && p.paymentMethod.None? && p.finalQuotation.None?
            && p.translationTime.None? && p.deadline.None?)
  {
    var u := CancelUpdates(order, reason);
    assert u["status"] == JStr("Lost");
    assert "paymentStatus" !in u && "paymentMethod" !in u && "finalQuotation" !in u;
    assert "translationTime" !in u && "deadline" !in u;
  }

  /** Over the status vocabulary a customer can cancel only a new ticket or
      an order that is lost already. */
  lemma CancelByStage(caller: Caller, id: string, order: Order, reason: Option<string>, s: Status)
    requires CanAccess(caller, order) && order.status == Some(StatusName(s))
    ensures HandleCancel(caller, id, order, reason).reply.Ok? <==> s == NewTicket || s == Lost
  {
    CancellableStatuses(s);
  }

  // ---------------------------------------------------------------------
  // GET /api/orders/:id/status
  // ---------------------------------------------------------------------

  datatype StatusView = StatusView(currentStatus: Option<string>, paymentStatus: Option<string>, timeline: seq<TimelineEntry>)

  function HandleStatus(caller: Caller, order: Order): (r: Reply<StatusView>)
    ensures r.Ok? <==> CanAccess(caller, order)
    ensures r.Fail? ==> r.failure == AccessDenied
    ensures r.Ok? ==>
      (r.data.currentStatus == order.status && r.data.paymentStatus == order.paymentStatus
       && r.data.timeline == Timeline(order.status))
  {
    if CanAccess(caller, order) then Ok(200, StatusView(order.status, order.paymentStatus, Timeline(order.status)))
    else Fail(AccessDenied)
  }

  /** A lost order shows five pending stages and no current one. */
  lemma LostOrderTimeline(caller: Caller, order: Order)
    requires CanAccess(caller, order) && order.status == Some("Lost")
    ensures var t := HandleStatus(caller, order).data.timeline;
      CountMarked(t, Completed) == 0 && CountMarked(t, Current) == 0 && CountMarked(t, Pending) == 5
  {
    TimelineCounts(order.status);
  }

  // ---------------------------------------------------------------------
  // Denied callers
  // ---------------------------------------------------------------------

  /** A customer who does not own the order is answered 403 by every route
      on it, and nothing is written. */
  lemma DeniedCallerChangesNothing(caller: Caller, id: string, order: Order, updates: map<string, Json>, reason: Option<string>)
    requires !CanAccess(caller, order)
    ensures GetOrder(caller, order) == Fail(AccessDenied)
    ensures HandleUpdate(caller, id, order, updates) == Handled(Fail(AccessDenied), [])
    ensures HandleCancel(caller, id, order, reason) == Handled(Fail(AccessDenied), [])
    ensures HandleStatus(caller, order) == Fail(AccessDenied)
    ensures StatusCode(AccessDenied) == 403
  {
  }

  // ---------------------------------------------------------------------
  // POST /api/orders/calculate-price
  // ---------------------------------------------------------------------

  /** The body of the price check, passed to `calculatePrice` as received. */
  function PriceCheckOptions(b: CreateBody): PriceOptions {
    PriceOptions(b.serviceType, b.pages, b.words, BoolTruthy(b.certification), b.numDocs, b.insurance,
      b.insuranceCount, b.additionalCopies, b.deliveryMethod, BoolTruthy(b.rushTranslation))
  }

  /** The price check quotes what creating the order would store, unless
      one of the counts is given as 0: the price check then prices the 0
      while creation falls back to 1. */
  lemma PriceCheckAgreesWithCreate(b: CreateBody)
    requires b.pages != Some(0) && b.numDocs != Some(0) && b.insuranceCount != Some(0)
    ensures QuoteOf(PriceCheckOptions(b)) == QuoteOf(CreatePriceOptions(b))
  {
    assert PriceCheckOptions(b) == CreatePriceOptions(b).(pages := b.pages, numDocs := b.numDocs,
      insuranceCount := b.insuranceCount, additionalCopies := b.additionalCopies);
    var o, o' := PriceCheckOptions(b), CreatePriceOptions(b);
    assert PagesOf(o) == PagesOf(o') && NumDocsOf(o) == NumDocsOf(o');
    assert InsuranceCountOf(o) == InsuranceCountOf(o') && CopiesOf(o) == CopiesOf(o');
    assert AllLines(o) == AllLines(o');
  }

  /** Zero pages of AI translation: the price check quotes 0, creation
      charges one page. */
  lemma PriceCheckZeroPages()
    ensures var b := CreateBody(None, None, Some("ai-translation"), None, None, Some(0), None, None,
                                None, None, None, None, None, None, None, None);
      QuoteOf(PriceCheckOptions(b)).total == 0 && QuoteOf(CreatePriceOptions(b)).total == AiTranslationPerPage
  {
    var b := CreateBody(None, None, Some("ai-translation"), None, None, Some(0), None, None,
                        None, None, None, None, None, None, None, None);
    assert ServiceAmount(PriceCheckOptions(b)) == 0;
    assert ServiceAmount(CreatePriceOptions(b)) == AiTranslationPerPage;
  }
}
