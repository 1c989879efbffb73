/**
 * The pure part of `NotionService` (notion.service.js): reading an order
 * out of a page, the property maps sent by `createOrder` and
 * `updateOrder`, the query built by `getOrders`, and the counting done by
 * `getStatistics`. The client calls themselves are not modelled; their
 * results are parameters.
 */
module NotionService {
  import opened Js
  import opened NotionData
  import opened Counters

  // ---------------------------------------------------------------------
  // richTextToString
  // ---------------------------------------------------------------------

  /** `richText.map(t => t.plain_text).join('')` */
  function JoinPlainText(rt: seq<RichText>): string {
    if rt == [] then "" else rt[0].plainText + JoinPlainText(rt[1..])
  }

  /** `richTextToString(richText)`: `''` unless it is an array. */
  function RichTextToString(rt: Option<seq<RichText>>): (r: string)
    ensures rt.None? ==> r == ""
    ensures rt == Some([]) ==> r == ""
  {
    if rt.None? then "" else JoinPlainText(rt.value)
  }

  /** The fragments are concatenated in order. */
  lemma {:induction false} JoinPlainTextAppend(a: seq<RichText>, b: seq<RichText>)
    ensures JoinPlainText(a + b) == JoinPlainText(a) + JoinPlainText(b)
  {
    if a == [] {
      assert a + b == b;
    } else {
      JoinPlainTextAppend(a[1..], b);
      assert (a + b)[1..] == a[1..] + b;
      calc {
        JoinPlainText(a + b);
        a[0].plainText + JoinPlainText(a[1..] + b);
        a[0].plainText + (JoinPlainText(a[1..]) + JoinPlainText(b));
        (a[0].plainText + JoinPlainText(a[1..])) + JoinPlainText(b);
      }
    }
  }

  /** A single fragment is its own text, and the length of the string is
      the total length of the fragments. */
  lemma {:induction false} JoinPlainTextLength(rt: seq<RichText>)
    ensures |rt| == 1 ==> JoinPlainText(rt) == rt[0].plainText
    ensures |JoinPlainText(rt)| == TextLength(rt)
  {
    if rt != [] {
      JoinPlainTextLength(rt[1..]);
    }
  }

  function TextLength(rt: seq<RichText>): nat {
    if rt == [] then 0 else |rt[0].plainText| + TextLength(rt[1..])
  }

  // ---------------------------------------------------------------------
  // parseOrderFromPage
  // ---------------------------------------------------------------------

  datatype Document = Document(name: string, url: Option<string>)

  /** The order object the service hands to the routes. */
  datatype Order = Order(
    id: string, url: string, createdAt: int, updatedAt: int,
    customerName: string, customerId: Option<nat>, phone: Nullable<string>, customerStatus: Option<string>,
    status: Option<string>, paymentStatus: Option<string>,
    service: seq<string>, documentType: seq<string>, language: seq<string>,
    pages: int, words: int, finalQuotation: int,
    certification: bool, numDocs: int, insurance: seq<string>, deliveryMethod: seq<string>,
    paymentMethod: Option<string>, deadline: Option<string>, translationTime: Option<string>,
    notes: string, documents: seq<Document>, channel: Option<string>)

  /** `f.file?.url || f.external?.url` */
  function DocumentOf(f: FileRef): Document {
    Document(f.name, if StrTruthy(f.fileUrl) then f.fileUrl else f.externalUrl)
  }

  function DocumentsOf(files: seq<FileRef>): (r: seq<Document>)
    ensures |r| == |files|
    ensures forall i :: 0 <= i < |files| ==> r[i] == DocumentOf(files[i])
  {
    if files == [] then [] else [DocumentOf(files[0])] + DocumentsOf(files[1..])
  }

  /** `x?.multi_select?.map(s => s.name) || []` */
  function NamesOr(p: Option<Property>): seq<string> {
    Default(MultiSelectOf(p), [])
  }

  function ParseOrderFromPage(page: Page<OrderRow>): Order {
    var props := page.properties;
    Order(
      page.id, page.url, page.createdTime, page.lastEditedTime,
      RichTextToString(TitleOf(props.customerName)),
      UniqueIdNumberOf(props.customerId),
      PhoneNumberOf(props.phone),
      SelectNameOf(props.customerStatus),
      StatusNameOf(props.status),
      StatusNameOf(props.paymentStatus),
      NamesOr(props.service),
      NamesOr(props.docType),
      NamesOr(props.language),
      IntOr(NumberOf(props.pageCount), 0),
      IntOr(NumberOf(props.words), 0),
      IntOr(NumberOf(props.finalQuotation), 0),
      Default(CheckboxOf(props.certification), false),
      IntOr(NumberOf(props.numDocs), 1),
      NamesOr(props.insurance),
      NamesOr(props.deliveryMethod),
      SelectNameOf(props.paymentMethod),
      DateStartOf(props.deadline),
      DateStartOf(props.translationTime),
      RichTextToString(RichTextOf(props.notes)),
      DocumentsOf(Default(FilesOf(props.documents), [])),
      SelectNameOf(props.channel))
  }

  /** A page without properties reads as the defaults: no pages, words or
      quotation, one document, no certification, empty lists and texts. */
  lemma ParseOrderDefaults(page: Page<OrderRow>)
    requires page.properties == EmptyOrderRow
    ensures var o := ParseOrderFromPage(page);
      && o.pages == 0 && o.words == 0 && o.finalQuotation == 0 && o.numDocs == 1
      && !o.certification
      && o.service == [] && o.documentType == [] && o.language == [] && o.insurance == []
      && o.deliveryMethod == [] && o.documents == []
      && o.customerName == "" && o.notes == ""
      && o.phone == Undefined && o.status.None? && o.paymentStatus.None? && o.channel.None?
  {
  }

  /** The numeric defaults replace a missing property, a `null` and also an
      explicit 0 (`|| 0`, `|| 1`): a stored 0 documents reads as 1. */
  lemma ParseOrderNumbers(page: Page<OrderRow>, n: int)
    ensures page.properties.pageCount == Some(NumberValue(Some(n))) ==>
      ParseOrderFromPage(page).pages == n
    ensures page.properties.numDocs == Some(NumberValue(Some(n))) ==>
      ParseOrderFromPage(page).numDocs == (if n == 0 then 1 else n)
    ensures page.properties.numDocs == Some(NumberValue(None)) ==>
      ParseOrderFromPage(page).numDocs == 1
    ensures page.properties.phone == Some(PhoneValue(None)) ==> ParseOrderFromPage(page).phone == Null
  {
  }

  // ---------------------------------------------------------------------
  // createOrder: the property map
  // ---------------------------------------------------------------------

  /** The `orderData` argument of `createOrder`; `None` is `undefined`. */
  datatype OrderData = OrderData(
    customerName: Option<string>, phone: Option<string>,
    services: Option<seq<string>>, languages: Option<seq<string>>, documentTypes: Option<seq<string>>,
    pages: Option<int>, words: Option<int>, certification: Option<bool>, numDocs: Option<int>,
    totalPrice: Option<int>, deliveryMethods: Option<seq<string>>, notes: Option<string>,
    channel: Option<string>, insurance: Option<seq<string>>, insuranceCount: Option<int>,
    deadline: Option<string>, paymentMethod: Option<string>, customerStatus: Option<string>)

  const DefaultLanguage := "En ⇆ Ar"

  /** `createRichText(content)`: one fragment holding `content || ''`. */
  function TextOf(content: Option<string>): seq<RichText> {
    [RichText(StrOr(content, ""))]
  }

  /** The fourteen properties every new order gets. */
  function BaseOrderProperties(d: OrderData): OrderRow {
    EmptyOrderRow.(
      customerName := Some(TitleValue(TextOf(d.customerName))),
      phone := Some(PhoneValue(d.phone)),
      status := Some(StatusValue(Some("New Ticket"))),
      paymentStatus := Some(StatusValue(Some("Not Paid"))),
      service := Some(MultiSelectValue(Default(d.services, ["Translation"]))),
      language := Some(MultiSelectValue(Default(d.languages, [DefaultLanguage]))),
      docType := Some(MultiSelectValue(Default(d.documentTypes, []))),
      pageCount := Some(NumberValue(Some(IntOr(d.pages, 1)))),
      certification := Some(CheckboxValue(d.certification == Some(true))),
      numDocs := Some(NumberValue(Some(IntOr(d.numDocs, 1)))),
      finalQuotation := Some(NumberValue(Some(IntOr(d.totalPrice, 0)))),
      deliveryMethod := Some(MultiSelectValue(Default(d.deliveryMethods, ["Pickup"]))),
      notes := Some(RichTextValue(TextOf(d.notes))),
      channel := Some(SelectValue(Some(StrOr(d.channel, "App")))))
  }

  predicate HasInsurance(d: OrderData) {
    d.insurance.Some? && |d.insurance.value| > 0
  }

  // The optional properties, each added only when its field is given.

  function WithInsurance(props: OrderRow, d: OrderData): OrderRow {
    if HasInsurance(d) then
      props.(insurance := Some(MultiSelectValue(d.insurance.value)),
             insuranceCount := Some(NumberValue(Some(IntOr(d.insuranceCount, 1)))))
    else props
  }

  function WithWords(props: OrderRow, d: OrderData): OrderRow {
    if IntTruthy(d.words) then props.(words := Some(NumberValue(d.words))) else props
  }

  function WithDeadline(props: OrderRow, d: OrderData): OrderRow {
    if StrTruthy(d.deadline) then props.(deadline := Some(DateValue(d.deadline))) else props
  }

  function WithPaymentMethod(props: OrderRow, d: OrderData): OrderRow {
    if StrTruthy(d.paymentMethod) then props.(paymentMethod := Some(SelectValue(d.paymentMethod))) else props
  }

  function WithCustomerStatus(props: OrderRow, d: OrderData): OrderRow {
    if StrTruthy(d.customerStatus) then props.(customerStatus := Some(SelectValue(d.customerStatus))) else props
  }

  /** The `properties` object `createOrder` sends. */
  function OrderProperties(d: OrderData): OrderRow {
    WithCustomerStatus(WithPaymentMethod(WithDeadline(WithWords(WithInsurance(BaseOrderProperties(d), d), d), d), d), d)
  }

  /** `createOrder`'s construction of `properties`, step by step. */
  method CreateOrderProperties(d: OrderData) returns (props: OrderRow)
    ensures props == OrderProperties(d)
  {
    props := BaseOrderProperties(d);
    if d.insurance.Some? && |d.insurance.value| > 0 {
      props := props.(insurance := Some(MultiSelectValue(d.insurance.value)));
      props := props.(insuranceCount := Some(NumberValue(Some(IntOr(d.insuranceCount, 1)))));
    }
    if IntTruthy(d.words) {
      props := props.(words := Some(NumberValue(d.words)));
    }
    if StrTruthy(d.deadline) {
      props := props.(deadline := Some(DateValue(d.deadline)));
    }
    if StrTruthy(d.paymentMethod) {
      props := props.(paymentMethod := Some(SelectValue(d.paymentMethod)));
    }
    if StrTruthy(d.customerStatus) {
      props := props.(customerStatus := Some(SelectValue(d.customerStatus)));
    }
  }

  /** A new order is always a new, unpaid ticket, whatever the input. */
  lemma CreatedOrderStatuses(d: OrderData)
    ensures OrderProperties(d).status == Some(StatusValue(Some("New Ticket")))
    ensures OrderProperties(d).paymentStatus == Some(StatusValue(Some("Not Paid")))
  {
  }

  /** The defaults of a new order's counts, lists and channel. */
  lemma CreatedOrderDefaults(d: OrderData)
    ensures var p := OrderProperties(d);
      && p.pageCount == Some(NumberValue(Some(if IntTruthy(d.pages) then d.pages.value else 1)))
      && p.numDocs == Some(NumberValue(Some(if IntTruthy(d.numDocs) then d.numDocs.value else 1)))
      && p.finalQuotation == Some(NumberValue(Some(if IntTruthy(d.totalPrice) then d.totalPrice.value else 0)))
      && (d.services.None? ==> p.service == Some(MultiSelectValue(["Translation"])))
      && (d.languages.None? ==> p.language == Some(MultiSelectValue(["En ⇆ Ar"])))
      && (d.deliveryMethods.None? ==> p.deliveryMethod == Some(MultiSelectValue(["Pickup"])))
      && (!StrTruthy(d.channel) ==> p.channel == Some(SelectValue(Some("App"))))
  {
  }

  /** Each optional property is written exactly when its field is given:
      insurance (with its count) for a non-empty list, the others when
      truthy; the columns the code never names stay empty. */
  lemma CreatedOrderOptionalFields(d: OrderData)
    ensures var p := OrderProperties(d);
      && (p.insurance.Some? <==> HasInsurance(d))
      && (p.insuranceCount.Some? <==> HasInsurance(d))
      && (HasInsurance(d) ==> p.insuranceCount == Some(NumberValue(Some(if IntTruthy(d.insuranceCount) then d.insuranceCount.value else 1))))
      && (p.words.Some? <==> IntTruthy(d.words))
      && (p.deadline.Some? <==> StrTruthy(d.deadline))
      && (p.paymentMethod.Some? <==> StrTruthy(d.paymentMethod))
      && (p.customerStatus.Some? <==> StrTruthy(d.customerStatus))
      && p.customerId.None? && p.translationTime.None? && p.documents.None?
  {
  }

  /** Every column of the created row, as `createOrder` fills it in. */
  lemma CreatedOrderRow(d: OrderData)
    ensures var p := OrderProperties(d);
      && p.customerName == Some(TitleValue(TextOf(d.customerName)))
      && p.notes == Some(RichTextValue(TextOf(d.notes)))
      && p.status == Some(StatusValue(Some("New Ticket")))
      && p.paymentStatus == Some(StatusValue(Some("Not Paid")))
      && p.pageCount == Some(NumberValue(Some(IntOr(d.pages, 1))))
      && p.numDocs == Some(NumberValue(Some(IntOr(d.numDocs, 1))))
      && p.finalQuotation == Some(NumberValue(Some(IntOr(d.totalPrice, 0))))
      && p.service == Some(MultiSelectValue(Default(d.services, ["Translation"])))
      && p.channel == Some(SelectValue(Some(StrOr(d.channel, "App"))))
      && p.phone == Some(PhoneValue(d.phone))
      && p.certification == Some(CheckboxValue(d.certification == Some(true)))
      && p.words == (if IntTruthy(d.words) then Some(NumberValue(d.words)) else None)
      && p.insurance == (if HasInsurance(d) then Some(MultiSelectValue(d.insurance.value)) else None)
      && p.paymentMethod == (if StrTruthy(d.paymentMethod) then Some(SelectValue(d.paymentMethod)) else None)
      && p.customerId.None? && p.documents.None?
  {
  }

  /** Reading back a page created from `orderData`: the statuses are fixed,
      the defaults show through, and the optional fields read as their
      defaults when they were not given. */
  lemma ParseCreatedOrder(d: OrderData, id: string, url: string, created: int, edited: int)
    ensures var o := ParseOrderFromPage(Page(id, url, created, edited, OrderProperties(d)));
      && o.status == Some("New Ticket") && o.paymentStatus == Some("Not Paid")
      && o.customerName == StrOr(d.customerName, "")
      && o.notes == StrOr(d.notes, "")
      && o.pages == IntOr(d.pages, 1) && o.numDocs == IntOr(d.numDocs, 1)
      && o.finalQuotation == IntOr(d.totalPrice, 0)
      && o.words == IntOr(d.words, 0)
      && o.service == Default(d.services, ["Translation"])
      && o.insurance == (if HasInsurance(d) then d.insurance.value else [])
      && o.channel == Some(StrOr(d.channel, "App"))
      && o.phone == (if d.phone.Some? then Present(d.phone.value) else Null)
      && o.certification == (d.certification == Some(true))
      && o.paymentMethod == (if StrTruthy(d.paymentMethod) then d.paymentMethod else None)
      && o.customerId.None? && o.documents == []
  {
    CreatedOrderRow(d);
    JoinPlainTextLength(TextOf(d.customerName));
    JoinPlainTextLength(TextOf(d.notes));
  }

  // ---------------------------------------------------------------------
  // updateOrder: the property map
  // ---------------------------------------------------------------------

  /** The `properties` object of `updateOrder`: the seven columns it can
      write, each with the request value written there (a status or select
      name, a number, the note text, a date). */
  datatype UpdateRow = UpdateRow(
    status: Option<Json>, paymentStatus: Option<Json>, paymentMethod: Option<Json>,
    finalQuotation: Option<Json>, notes: Option<Json>, translationTime: Option<Json>, deadline: Option<Json>)

  const NoUpdates := UpdateRow(None, None, None, None, None, None, None)

  /** The request keys `updateOrder` looks at. */
  const UpdateKeys: set<string> :=
    {"status", "paymentStatus", "paymentMethod", "finalQuotation", "notes", "translationTime", "deadline"}

  /** `u.key` when it is truthy. */
  function IfTruthy(u: map<string, Json>, key: string): Option<Json> {
    if HasTruthy(u, key) then Some(u[key]) else None
  }

  /** `u.key` when it is not `undefined`. */
  function IfPresent(u: map<string, Json>, key: string): Option<Json> {
    if key in u then Some(u[key]) else None
  }

  /** The note text: `createRichText(notes)` writes `notes || ''`. */
  function NoteText(u: map<string, Json>): Option<Json> {
    if "notes" in u then Some(if Truthy(u["notes"]) then u["notes"] else JStr("")) else None
  }

  function UpdateProperties(u: map<string, Json>): UpdateRow {
    UpdateRow(IfTruthy(u, "status"), IfTruthy(u, "paymentStatus"), IfTruthy(u, "paymentMethod"),
              IfPresent(u, "finalQuotation"), NoteText(u),
              IfTruthy(u, "translationTime"), IfTruthy(u, "deadline"))
  }

  /** `updateOrder`'s construction of `properties`, step by step. */
  method UpdateOrderProperties(u: map<string, Json>) returns (props: UpdateRow)
    ensures props == UpdateProperties(u)
  {
    props := NoUpdates;
    if "status" in u && Truthy(u["status"]) {
      props := props.(status := Some(u["status"]));
    }
    assert props == NoUpdates.(status := IfTruthy(u, "status"));
    if "paymentStatus" in u && Truthy(u["paymentStatus"]) {
      props := props.(paymentStatus := Some(u["paymentStatus"]));
    }
    assert props.paymentStatus == IfTruthy(u, "paymentStatus");
    if "paymentMethod" in u && Truthy(u["paymentMethod"]) {
      props := props.(paymentMethod := Some(u["paymentMethod"]));
    }
    assert props.paymentMethod == IfTruthy(u, "paymentMethod");
    if "finalQuotation" in u {
      props := props.(finalQuotation := Some(u["finalQuotation"]));
    }
    assert props.finalQuotation == IfPresent(u, "finalQuotation");
    if "notes" in u {
      var content := if Truthy(u["notes"]) then u["notes"] else JStr("");
      props := props.(notes := Some(content));
    }
    assert props.notes == NoteText(u);
    if "translationTime" in u && Truthy(u["translationTime"]) {
      props := props.(translationTime := Some(u["translationTime"]));
    }
    assert props.translationTime == IfTruthy(u, "translationTime");
    if "deadline" in u && Truthy(u["deadline"]) {
      props := props.(deadline := Some(u["deadline"]));
    }
  }

  /** Status, payment status, payment method and the dates are written only
      when truthy; the quotation and the notes whenever the key is present,
      so a quotation of 0 and an empty note are written too. */
  lemma UpdateWritesWhen(u: map<string, Json>)
    ensures var r := UpdateProperties(u);
      && (r.status.Some? <==> HasTruthy(u, "status"))
      && (r.paymentStatus.Some? <==> HasTruthy(u, "paymentStatus"))
      && (r.paymentMethod.Some? <==> HasTruthy(u, "paymentMethod"))
      && (r.translationTime.Some? <==> HasTruthy(u, "translationTime"))
      && (r.deadline.Some? <==> HasTruthy(u, "deadline"))
      && (r.finalQuotation.Some? <==> "finalQuotation" in u)
      && (r.notes.Some? <==> "notes" in u)
      && ("finalQuotation" in u ==> r.finalQuotation == Some(u["finalQuotation"]))
      && ("notes" in u && !Truthy(u["notes"]) ==> r.notes == Some(JStr("")))
      && (HasTruthy(u, "status") ==> r.status == Some(u["status"]))
  {
  }

  /** Keys other than the seven it maps are ignored. */
  lemma UpdateIgnoresOtherKeys(u: map<string, Json>, k: string, v: Json)
    requires k !in UpdateKeys
    ensures UpdateProperties(u[k := v]) == UpdateProperties(u)
  {
  }

  /** An update with none of the seven keys writes nothing. */
  lemma UpdateWithoutKnownKeys(u: map<string, Json>)
    requires forall k :: k in u ==> k !in UpdateKeys
    ensures UpdateProperties(u) == NoUpdates
  {
    assert "status" !in u && "paymentStatus" !in u && "paymentMethod" !in u && "finalQuotation" !in u;
    assert "notes" !in u && "translationTime" !in u && "deadline" !in u;
  }

  // ---------------------------------------------------------------------
  // getOrders: the query
  // ---------------------------------------------------------------------

  datatype OrderFilters = OrderFilters(
    status: Option<string>, paymentStatus: Option<string>, dateFrom: Option<string>, dateTo: Option<string>)

  datatype Pagination = Pagination(pageSize: Option<int>, cursor: Option<string>)

  datatype Condition =
    | StatusEquals(status: string)
    | PaymentStatusEquals(paymentStatus: string)
    | CreatedOnOrAfter(from: string)
    | CreatedOnOrBefore(to: string)

  /** `filterConditions[0]` alone, or `{ and: filterConditions }`. */
  datatype QueryFilter = Single(condition: Condition) | All(conditions: seq<Condition>)

  /** The query, sorted by creation time, newest first. */
  datatype OrdersQuery = OrdersQuery(pageSize: int, startCursor: Option<string>, filter: Option<QueryFilter>)

  /** The position of each kind of condition in the pushes. */
  function Rank(c: Condition): nat {
    match c
    case StatusEquals(_) => 0
    case PaymentStatusEquals(_) => 1
    case CreatedOnOrAfter(_) => 2
    case CreatedOnOrBefore(_) => 3
  }

  function When(b: bool, c: Condition): seq<Condition> {
    if b then [c] else []
  }

  /** The conditions pushed for the truthy filters, in push order. */
  function Conditions(f: OrderFilters): seq<Condition> {
    When(StrTruthy(f.status), StatusEquals(StrOr(f.status, "")))
    + When(StrTruthy(f.paymentStatus), PaymentStatusEquals(StrOr(f.paymentStatus, "")))
    + When(StrTruthy(f.dateFrom), CreatedOnOrAfter(StrOr(f.dateFrom, "")))
    + When(StrTruthy(f.dateTo), CreatedOnOrBefore(StrOr(f.dateTo, "")))
  }

  function FilterOf(conditions: seq<Condition>): Option<QueryFilter> {
    if |conditions| == 0 then None
    else if |conditions| == 1 then Some(Single(conditions[0]))
    else Some(All(conditions))
  }

  function OrdersQueryOf(f: OrderFilters, p: Pagination): OrdersQuery {
    OrdersQuery(IntOr(p.pageSize, 20), if StrTruthy(p.cursor) then p.cursor else None, FilterOf(Conditions(f)))
  }

  /** `getOrders`'s construction of the query, pushing one condition per
      truthy filter. */
  method BuildOrdersQuery(f: OrderFilters, p: Pagination) returns (q: OrdersQuery)
    ensures q == OrdersQueryOf(f, p)
  {
    var startCursor := None;
    if StrTruthy(p.cursor) {
      startCursor := p.cursor;
    }
    var filterConditions: seq<Condition> := [];
    if StrTruthy(f.status) {
      filterConditions := filterConditions + [StatusEquals(f.status.value)];
    }
    assert filterConditions == When(StrTruthy(f.status), StatusEquals(StrOr(f.status, "")));
    if StrTruthy(f.paymentStatus) {
      filterConditions := filterConditions + [PaymentStatusEquals(f.paymentStatus.value)];
    }
    assert filterConditions == When(StrTruthy(f.status), StatusEquals(StrOr(f.status, "")))
      + When(StrTruthy(f.paymentStatus), PaymentStatusEquals(StrOr(f.paymentStatus, "")));
    if StrTruthy(f.dateFrom) {
      filterConditions := filterConditions + [CreatedOnOrAfter(f.dateFrom.value)];
    }
    assert filterConditions == When(StrTruthy(f.status), StatusEquals(StrOr(f.status, "")))
      + When(StrTruthy(f.paymentStatus), PaymentStatusEquals(StrOr(f.paymentStatus, "")))
      + When(StrTruthy(f.dateFrom), CreatedOnOrAfter(StrOr(f.dateFrom, "")));
    if StrTruthy(f.dateTo) {
      filterConditions := filterConditions + [CreatedOnOrBefore(f.dateTo.value)];
    }
    assert filterConditions == Conditions(f);
    var filter := None;
    if |filterConditions| > 0 {
      filter := if |filterConditions| == 1 then Some(Single(filterConditions[0])) else Some(All(filterConditions));
    }
    q := OrdersQuery(IntOr(p.pageSize, 20), startCursor, filter);
  }

  lemma InWhen(b: bool, c: Condition, x: Condition)
    ensures x in When(b, c) <==> b && x == c
  {
  }

  /** The conditions pushed are those of the truthy filters. */
  lemma ConditionsMembership(f: OrderFilters, x: Condition)
    ensures x in Conditions(f) <==>
      (StrTruthy(f.status) && x == StatusEquals(StrOr(f.status, "")))
      || (StrTruthy(f.paymentStatus) && x == PaymentStatusEquals(StrOr(f.paymentStatus, "")))
      || (StrTruthy(f.dateFrom) && x == CreatedOnOrAfter(StrOr(f.dateFrom, "")))
      || (StrTruthy(f.dateTo) && x == CreatedOnOrBefore(StrOr(f.dateTo, "")))
  {
    var a := When(StrTruthy(f.status), StatusEquals(StrOr(f.status, "")));
    var b := When(StrTruthy(f.paymentStatus), PaymentStatusEquals(StrOr(f.paymentStatus, "")));
    var c := When(StrTruthy(f.dateFrom), CreatedOnOrAfter(StrOr(f.dateFrom, "")));
    var d := When(StrTruthy(f.dateTo), CreatedOnOrBefore(StrOr(f.dateTo, "")));
    assert Conditions(f) == a + b + c + d;
    assert x in a + b + c + d <==> x in a || x in b || x in c || x in d;
    InWhen(StrTruthy(f.status), StatusEquals(StrOr(f.status, "")), x);
    InWhen(StrTruthy(f.paymentStatus), PaymentStatusEquals(StrOr(f.paymentStatus, "")), x);
    InWhen(StrTruthy(f.dateFrom), CreatedOnOrAfter(StrOr(f.dateFrom, "")), x);
    InWhen(StrTruthy(f.dateTo), CreatedOnOrBefore(StrOr(f.dateTo, "")), x);
  }

  /** A condition is pushed exactly for each truthy filter, with the
      filter's value. */
  lemma ConditionsForTruthyFilters(f: OrderFilters, s: string)
    ensures StatusEquals(s) in Conditions(f) <==> f.status == Some(s) && s != ""
    ensures PaymentStatusEquals(s) in Conditions(f) <==> f.paymentStatus == Some(s) && s != ""
    ensures CreatedOnOrAfter(s) in Conditions(f) <==> f.dateFrom == Some(s) && s != ""
    ensures CreatedOnOrBefore(s) in Conditions(f) <==> f.dateTo == Some(s) && s != ""
  {
    ConditionsMembership(f, StatusEquals(s));
    ConditionsMembership(f, PaymentStatusEquals(s));
    ConditionsMembership(f, CreatedOnOrAfter(s));
    ConditionsMembership(f, CreatedOnOrBefore(s));
  }

  /** The conditions keep the order status, payment, from, to. */
  lemma ConditionsInOrder(f: OrderFilters)
    ensures forall i, j :: 0 <= i < j < |Conditions(f)| ==> Rank(Conditions(f)[i]) < Rank(Conditions(f)[j])
  {
  }

  /** No condition, no filter; one, that condition alone; more, all of
      them under `and`. */
  lemma FilterShape(f: OrderFilters)
    ensures |Conditions(f)| == 0 <==> OrdersQueryOf(f, Pagination(None, None)).filter.None?
    ensures |Conditions(f)| == 1 ==> OrdersQueryOf(f, Pagination(None, None)).filter == Some(Single(Conditions(f)[0]))
    ensures |Conditions(f)| >= 2 ==> OrdersQueryOf(f, Pagination(None, None)).filter == Some(All(Conditions(f)))
    ensures OrdersQueryOf(f, Pagination(None, None)).pageSize == 20
  {
  }

  // ---------------------------------------------------------------------
  // getStatistics
  // ---------------------------------------------------------------------

  datatype Statistics = Statistics(
    totalOrders: nat, totalRevenue: int,
    byStatus: seq<Bucket>, byPaymentStatus: seq<Bucket>, byService: seq<Bucket>, byChannel: seq<Bucket>)

  /** `o.finalQuotation || 0`, summed. */
  function Revenue(orders: seq<Order>): int {
    if orders == [] then 0 else Revenue(orders[..|orders| - 1]) + orders[|orders| - 1].finalQuotation
  }

  datatype CountedField = ByStatus | ByPaymentStatus | ByChannel

  /** The key an order is counted under; a missing value is `'Unknown'`. */
  function KeyOf(o: Order, f: CountedField): string {
    match f
    case ByStatus => StrOr(o.status, "Unknown")
    case ByPaymentStatus => StrOr(o.paymentStatus, "Unknown")
    case ByChannel => StrOr(o.channel, "Unknown")
  }

  function KeysOf(orders: seq<Order>, f: CountedField): (r: seq<string>)
    ensures |r| == |orders|
    ensures forall i :: 0 <= i < |orders| ==> r[i] == KeyOf(orders[i], f)
  {
    if orders == [] then [] else KeysOf(orders[..|orders| - 1], f) + [KeyOf(orders[|orders| - 1], f)]
  }

  /** Every service of every order, in order. */
  function ServicesOf(orders: seq<Order>): seq<string> {
    if orders == [] then [] else ServicesOf(orders[..|orders| - 1]) + orders[|orders| - 1].service
  }

  function StatisticsOf(orders: seq<Order>): Statistics {
    Statistics(|orders|, Revenue(orders),
      Tally(KeysOf(orders, ByStatus)), Tally(KeysOf(orders, ByPaymentStatus)),
      Tally(ServicesOf(orders)), Tally(KeysOf(orders, ByChannel)))
  }

  /** Extending the orders by one extends each key list by that order's keys. */
  lemma StatisticsPrefix(orders: seq<Order>, i: int)
    requires 0 <= i < |orders|
    ensures KeysOf(orders[..i + 1], ByStatus) == KeysOf(orders[..i], ByStatus) + [KeyOf(orders[i], ByStatus)]
    ensures KeysOf(orders[..i + 1], ByPaymentStatus) == KeysOf(orders[..i], ByPaymentStatus) + [KeyOf(orders[i], ByPaymentStatus)]
    ensures KeysOf(orders[..i + 1], ByChannel) == KeysOf(orders[..i], ByChannel) + [KeyOf(orders[i], ByChannel)]
    ensures ServicesOf(orders[..i + 1]) == ServicesOf(orders[..i]) + orders[i].service
  {
    assert orders[..i + 1][..i] == orders[..i];
  }

  /** `order.service.forEach(s => counter[s] = (counter[s] || 0) + 1)` */
  method CountEach(c: seq<Bucket>, ghost counted: seq<string>, keys: seq<string>) returns (r: seq<Bucket>)
    requires c == Tally(counted)
    ensures r == Tally(counted + keys)
  {
    r := c;
    var j := 0;
    assert counted + keys[..0] == counted;
    while j < |keys|
      invariant 0 <= j <= |keys|
      invariant r == Tally(counted + keys[..j])
    {
      assert counted + keys[..j + 1] == (counted + keys[..j]) + [keys[j]];
      TallySnoc(counted + keys[..j], keys[j]);
      r := Bump(r, keys[j]);
      j := j + 1;
    }
    assert keys[..j] == keys;
  }

  /** `getStatistics`' counting loop over the orders. */
  method GetStatistics(orders: seq<Order>) returns (stats: Statistics)
    ensures stats == StatisticsOf(orders)
  {
    var byStatus: seq<Bucket> := [];
    var byPaymentStatus: seq<Bucket> := [];
    var byService: seq<Bucket> := [];
    var byChannel: seq<Bucket> := [];
    var i := 0;
    while i < |orders|
      invariant 0 <= i <= |orders|
      invariant byStatus == Tally(KeysOf(orders[..i], ByStatus))
      invariant byPaymentStatus == Tally(KeysOf(orders[..i], ByPaymentStatus))
      invariant byService == Tally(ServicesOf(orders[..i]))
      invariant byChannel == Tally(KeysOf(orders[..i], ByChannel))
    {
      var order := orders[i];
      StatisticsPrefix(orders, i);
      TallySnoc(KeysOf(orders[..i], ByStatus), KeyOf(order, ByStatus));
      TallySnoc(KeysOf(orders[..i], ByPaymentStatus), KeyOf(order, ByPaymentStatus));
      TallySnoc(KeysOf(orders[..i], ByChannel), KeyOf(order, ByChannel));
      byStatus := Bump(byStatus, StrOr(order.status, "Unknown"));
      byPaymentStatus := Bump(byPaymentStatus, StrOr(order.paymentStatus, "Unknown"));
      byService := CountEach(byService, ServicesOf(orders[..i]), order.service);
      byChannel := Bump(byChannel, StrOr(order.channel, "Unknown"));
      i := i + 1;
    }
    assert orders[..i] == orders;
    stats := Statistics(|orders|, Revenue(orders), byStatus, byPaymentStatus, byService, byChannel);
  }

  /** `getStatistics` reads one page of 100 orders (`page_size: 100`) and
      follows no cursor: a period with more orders is counted as 100. */
  lemma StatisticsSeeOneStorePage(matching: seq<Order>)
    ensures var s := StatisticsOf(FirstPage(matching, 100));
      && s.totalOrders == (if |matching| <= 100 then |matching| else 100)
      && Total(s.byStatus) == s.totalOrders
  {
    StatisticsTotals(FirstPage(matching, 100));
  }

  /** The three per-order counters each add up to `totalOrders`, the
      service counter to the number of services listed. */
  lemma StatisticsTotals(orders: seq<Order>)
    ensures var s := StatisticsOf(orders);
      && s.totalOrders == |orders|
      && Total(s.byStatus) == s.totalOrders
      && Total(s.byPaymentStatus) == s.totalOrders
      && Total(s.byChannel) == s.totalOrders
      && Total(s.byService) == |ServicesOf(orders)|
  {
    TallyTotal(KeysOf(orders, ByStatus));
    TallyTotal(KeysOf(orders, ByPaymentStatus));
    TallyTotal(KeysOf(orders, ByChannel));
    TallyTotal(ServicesOf(orders));
  }

  /** The number of orders with this status, missing statuses counted as
      `'Unknown'`. */
  function StatusCount(orders: seq<Order>, k: string): nat {
    if orders == [] then 0
    else StatusCount(orders[..|orders| - 1], k) + (if StrOr(orders[|orders| - 1].status, "Unknown") == k then 1 else 0)
  }

  lemma {:induction false} KeysOfStatusCount(orders: seq<Order>, k: string)
    ensures Occurrences(KeysOf(orders, ByStatus), k) == StatusCount(orders, k)
  {
    if orders != [] {
      var init := orders[..|orders| - 1];
      KeysOfStatusCount(init, k);
      assert KeysOf(orders, ByStatus)[..|orders| - 1] == KeysOf(init, ByStatus);
    }
  }

  /** Each status bucket counts the orders with that status; the orders
      without one are in the `'Unknown'` bucket. */
  lemma StatusBuckets(orders: seq<Order>, k: string)
    ensures CountOf(StatisticsOf(orders).byStatus, k) == StatusCount(orders, k)
    ensures DistinctKeys(StatisticsOf(orders).byStatus)
    ensures HasKey(StatisticsOf(orders).byStatus, k) <==> exists i :: 0 <= i < |orders| && KeyOf(orders[i], ByStatus) == k
  {
    TallyCount(KeysOf(orders, ByStatus), k);
    KeysOfStatusCount(orders, k);
    TallyKeys(KeysOf(orders, ByStatus), k);
    var keys := KeysOf(orders, ByStatus);
    if k in keys {
      var i :| 0 <= i < |keys| && keys[i] == k;
      assert KeyOf(orders[i], ByStatus) == k;
    }
  }

  /** Revenue adds up over a split of the orders. */
  lemma {:induction false} RevenueAppend(a: seq<Order>, b: seq<Order>)
    ensures Revenue(a + b) == Revenue(a) + Revenue(b)
    decreases |b|
  {
    if b != [] {
      RevenueAppend(a, b[..|b| - 1]);
      assert (a + b)[..|a + b| - 1] == a + b[..|b| - 1];
    } else {
      assert a + b == a;
    }
  }
}
