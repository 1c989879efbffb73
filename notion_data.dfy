/**
 * The shape of a Notion database page as both service layers read and
 * write it: the named columns of a database, each holding a typed
 * property value or nothing.
 *
 * One datatype serves for what is written and what is read back: a title
 * or rich-text value written as text `content` is read back as a fragment
 * whose `plain_text` is that content.
 */
module NotionData {
  import opened Js

  /** One fragment of a rich-text array; only `plain_text` is used. */
  datatype RichText = RichText(plainText: string)

  /** An entry of a `files` property: an uploaded file or an external link. */
  datatype FileRef = FileRef(name: string, fileUrl: Option<string>, externalUrl: Option<string>)

  /** A property value. `None` inside a constructor is Notion's `null`
      (an empty select, number, URL, ...). */
  datatype Property =
    | TitleValue(title: seq<RichText>)
    | RichTextValue(richText: seq<RichText>)
    | NumberValue(number: Option<int>)
    | SelectValue(select: Option<string>)
    | StatusValue(status: Option<string>)
    | MultiSelectValue(options: seq<string>)
    | UrlValue(url: Option<string>)
    | EmailValue(email: Option<string>)
    | PhoneValue(phoneNumber: Option<string>)
    | RelationValue(ids: seq<string>)
    | FormulaValue(formulaString: Option<string>, formulaNumber: Option<int>)
    | UniqueIdValue(prefix: Option<string>, idNumber: nat)
    | CheckboxValue(checked: bool)
    | DateValue(start: Option<string>)
    | FilesValue(files: seq<FileRef>)

  /** A page as the query and retrieve calls return it, with properties
      of shape `P`. Timestamps are integers (milliseconds). */
  datatype Page<P> = Page(id: string, url: string, createdTime: int, lastEditedTime: int, properties: P)

  /** The properties of a page of the customers (orders) database: one
      slot per column the code names, `None` when the page has no such
      property. The column names, emoji and trailing spaces included, are
      given beside each slot. */
  datatype OrderRow = OrderRow(
    customerName: Option<Property>,     // "Customer Name"
    customerId: Option<Property>,       // "Customer ID"
    phone: Option<Property>,            // "Phone"
    customerStatus: Option<Property>,   // "Customer Status"
    status: Option<Property>,           // "Status"
    paymentStatus: Option<Property>,    // "Payment Status 💰"
    service: Option<Property>,          // "service "
    docType: Option<Property>,          // "Type of Docs"
    language: Option<Property>,         // "Language 🚩"
    pageCount: Option<Property>,        // "Page"
    words: Option<Property>,            // "Words"
    finalQuotation: Option<Property>,   // "Final Quotation"
    certification: Option<Property>,    // "Certification"
    numDocs: Option<Property>,          // "N. of Docs"
    insurance: Option<Property>,        // "Insurance"
    insuranceCount: Option<Property>,   // "Number of Insurance"
    deliveryMethod: Option<Property>,   // "Delivery method"
    paymentMethod: Option<Property>,    // "Payment Method "
    deadline: Option<Property>,         // "Deadline "
    translationTime: Option<Property>,  // "Translation Time "
    notes: Option<Property>,            // "Notes "
    documents: Option<Property>,        // "Documents "
    channel: Option<Property>,          // "channel "
    documentName: Option<Property>,     // "Document Name"
    totalPages: Option<Property>,       // "Total Pages"
    totalWords: Option<Property>,       // "Total Words"
    total: Option<Property>,            // "Total"
    customerFolder: Option<Property>,   // "Customer Folder "
    pdfFolder: Option<Property>,        // "Ticket PDF Folder"
    customerProfile: Option<Property>)  // "Customer Profile "

  /** A page with none of the named properties. */
  const EmptyOrderRow := OrderRow(
    None, None, None, None, None, None, None, None, None, None,
    None, None, None, None, None, None, None, None, None, None,
    None, None, None, None, None, None, None, None, None, None)

  /** The properties of a page of the VIP profiles database. */
  datatype VipRow = VipRow(
    name: Option<Property>,           // "Name"
    profileId: Option<Property>,      // "Profile ID"
    password: Option<Property>,       // "Password " (trailing space)
    phone: Option<Property>,          // "Phone"
    email: Option<Property>,          // "Email"
    driveFolder: Option<Property>)    // "Drive Folder"

  // Optional chaining into a property: `p?.title`, `p?.number`, ...
  // A missing property, or one of another type, reads as `None`.

  function TitleOf(p: Option<Property>): Option<seq<RichText>> {
    if p.Some? && p.value.TitleValue? then Some(p.value.title) else None
  }

  function RichTextOf(p: Option<Property>): Option<seq<RichText>> {
    if p.Some? && p.value.RichTextValue? then Some(p.value.richText) else None
  }

  function NumberOf(p: Option<Property>): Option<int> {
    if p.Some? && p.value.NumberValue? then p.value.number else None
  }

  /** `p?.select?.name` */
  function SelectNameOf(p: Option<Property>): Option<string> {
    if p.Some? && p.value.SelectValue? then p.value.select else None
  }

  /** `p?.status?.name` */
  function StatusNameOf(p: Option<Property>): Option<string> {
    if p.Some? && p.value.StatusValue? then p.value.status else None
  }

  /** `p?.multi_select?.map(o => o.name)` */
  function MultiSelectOf(p: Option<Property>): Option<seq<string>> {
    if p.Some? && p.value.MultiSelectValue? then Some(p.value.options) else None
  }

  function UrlOf(p: Option<Property>): Option<string> {
    if p.Some? && p.value.UrlValue? then p.value.url else None
  }

  function EmailOf(p: Option<Property>): Option<string> {
    if p.Some? && p.value.EmailValue? then p.value.email else None
  }

  /** `p?.phone_number`: `undefined` for a missing property, `null` for an
      empty phone field. */
  function PhoneNumberOf(p: Option<Property>): Nullable<string> {
    if p.Some? && p.value.PhoneValue? then
      (if p.value.phoneNumber.Some? then Present(p.value.phoneNumber.value) else Null)
    else Undefined
  }

  /** `p?.unique_id?.number` */
  function UniqueIdNumberOf(p: Option<Property>): Option<nat> {
    if p.Some? && p.value.UniqueIdValue? then Some(p.value.idNumber) else None
  }

  function RelationOf(p: Option<Property>): Option<seq<string>> {
    if p.Some? && p.value.RelationValue? then Some(p.value.ids) else None
  }

  function CheckboxOf(p: Option<Property>): Option<bool> {
    if p.Some? && p.value.CheckboxValue? then Some(p.value.checked) else None
  }

  /** `p?.date?.start` */
  function DateStartOf(p: Option<Property>): Option<string> {
    if p.Some? && p.value.DateValue? then p.value.start else None
  }

  function FilesOf(p: Option<Property>): Option<seq<FileRef>> {
    if p.Some? && p.value.FilesValue? then Some(p.value.files) else None
  }

  /** What one database query returns: the first `pageSize` of the
      matching pages, in the query's order. The portal never follows the
      cursor to a second page. */
  function FirstPage<T>(matching: seq<T>, pageSize: nat): (r: seq<T>)
    ensures |r| == (if |matching| <= pageSize then |matching| else pageSize)
    ensures r == matching[..|r|]
  {
    if |matching| <= pageSize then matching else matching[..pageSize]
  }
}
