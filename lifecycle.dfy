/**
 * The order lifecycle: five stages an order passes through in sequence,
 * and the off-path `Lost` state a cancelled order ends in. Stored statuses
 * are strings, so the vocabulary is given both as an enumeration and as
 * the names the store uses.
 */
module Lifecycle {
  import opened Js

  datatype Status = NewTicket | Translation | DeliveryAndPayment | AfterSaleService | Archive | Lost

  function StatusName(s: Status): string {
    match s
    case NewTicket => "New Ticket"
    case Translation => "Translation"
    case DeliveryAndPayment => "Delivery and Payment"
    case AfterSaleService => "After Sale Service"
    case Archive => "Archive"
    case Lost => "Lost"
  }

  /** The status a stored name denotes, if it is one of the six. */
  function ParseStatus(name: string): (r: Option<Status>)
    ensures r.Some? ==> StatusName(r.value) == name
  {
    if name == "New Ticket" then Some(NewTicket)
    else if name == "Translation" then Some(Translation)
    else if name == "Delivery and Payment" then Some(DeliveryAndPayment)
    else if name == "After Sale Service" then Some(AfterSaleService)
    else if name == "Archive" then Some(Archive)
    else if name == "Lost" then Some(Lost)
    else None
  }

  lemma ParseStatusName(s: Status)
    ensures ParseStatus(StatusName(s)) == Some(s)
  {
  }

  /** The five stages, in pipeline order. `Lost` is not among them. */
  const StatusOrder: seq<string> := ["New Ticket", "Translation", "Delivery and Payment", "After Sale Service", "Archive"]

  /** The six names an administrator may set: the stages and `Lost`. */
  const ValidStatuses: seq<string> := StatusOrder + ["Lost"]

  /** The stages from which a customer may no longer cancel. */
  const NonCancellable: seq<string> := ["Translation", "Delivery and Payment", "After Sale Service", "Archive"]

  lemma ValidStatusesAreTheStatuses(name: string)
    ensures name in ValidStatuses <==> ParseStatus(name).Some?
  {
    if ParseStatus(name).Some? {
      assert name == StatusName(ParseStatus(name).value);
      assert ValidStatuses[5] == "Lost";
    }
  }

  /** A customer may cancel an order only while it is a new ticket, has
      been lost already, or has a status outside the vocabulary. */
  predicate Cancellable(status: Option<string>) {
    !(status.Some? && status.value in NonCancellable)
  }

  lemma CancellableStatuses(s: Status)
    ensures Cancellable(Some(StatusName(s))) <==> s == NewTicket || s == Lost
  {
    assert NonCancellable == StatusOrder[1..];
  }

  /** `list.indexOf(x)`: the first position holding `x`, or -1. An
      undefined `x` is found nowhere. */
  function IndexOf(list: seq<string>, x: Option<string>): (r: int)
    ensures -1 <= r < |list|
    ensures r >= 0 ==> x == Some(list[r]) && forall j :: 0 <= j < r ==> list[j] != x.value
    ensures r == -1 <==> x.None? || x.value !in list
  {
    if x.None? || list == [] then -1
    else if list[0] == x.value then 0
    else var i := IndexOf(list[1..], x); if i == -1 then -1 else i + 1
  }

  /** The Arabic label shown beside a stage. */
  function ArabicLabel(stage: string): string {
    if stage == "New Ticket" then "طلب جديد"
    else if stage == "Translation" then "قيد الترجمة"
    else if stage == "Delivery and Payment" then "التسليم والدفع"
    else if stage == "After Sale Service" then "خدمة ما بعد البيع"
    else if stage == "Archive" then "مؤرشف"
    else ""
  }

  datatype TimelineEntry = TimelineEntry(status: string, statusAr: string, completed: bool, current: bool, pending: bool)

  /** `stages.map((status, index) => ...)` against the position `current`
      of the order's status. */
  function TimelineOf(stages: seq<string>, current: int): (r: seq<TimelineEntry>)
    ensures |r| == |stages|
    ensures forall i :: 0 <= i < |r| ==>
      r[i] == TimelineEntry(stages[i], ArabicLabel(stages[i]), i < current, i == current, i > current)
  {
    seq(|stages|, i requires 0 <= i < |stages| =>
      TimelineEntry(stages[i], ArabicLabel(stages[i]), i < current, i == current, i > current))
  }

  /** The timeline of the order status route. */
  function Timeline(status: Option<string>): seq<TimelineEntry> {
    TimelineOf(StatusOrder, IndexOf(StatusOrder, status))
  }

  datatype Mark = Completed | Current | Pending

  predicate Marked(e: TimelineEntry, m: Mark) {
    match m
    case Completed => e.completed
    case Current => e.current
    case Pending => e.pending
  }

  function CountMarked(t: seq<TimelineEntry>, m: Mark): (r: nat)
    ensures r <= |t|
  {
    if t == [] then 0 else CountMarked(t[..|t| - 1], m) + (if Marked(t[|t| - 1], m) then 1 else 0)
  }

  function Clamp(x: int, n: nat): nat {
    if x < 0 then 0 else if x > n then n else x
  }

  /** Against a position inside the list, exactly the entries before it
      are completed, the one at it is current and those after it are
      pending; against -1 every entry is pending. */
  lemma {:induction false} TimelineOfCounts(stages: seq<string>, current: int)
    ensures CountMarked(TimelineOf(stages, current), Completed) == Clamp(current, |stages|)
    ensures CountMarked(TimelineOf(stages, current), Current) == (if 0 <= current < |stages| then 1 else 0)
    ensures CountMarked(TimelineOf(stages, current), Pending) == |stages| - Clamp(current + 1, |stages|)
    decreases |stages|
  {
    if stages != [] {
      var n := |stages|;
      var t := TimelineOf(stages, current);
      var front := stages[..n - 1];
      assert t[..n - 1] == TimelineOf(front, current);
      TimelineOfCounts(front, current);
    }
  }

  /** A status at stage `i` yields `i` completed entries, one current and
      `4 - i` pending ones; a status outside the pipeline (`Lost`, or none)
      yields five pending entries and no current one. */
  lemma TimelineCounts(status: Option<string>)
    ensures var i := IndexOf(StatusOrder, status);
      var t := Timeline(status);
      && (i >= 0 ==> CountMarked(t, Completed) == i && CountMarked(t, Current) == 1 && CountMarked(t, Pending) == 4 - i)
      && (i == -1 ==> CountMarked(t, Completed) == 0 && CountMarked(t, Current) == 0 && CountMarked(t, Pending) == 5)
  {
    TimelineOfCounts(StatusOrder, IndexOf(StatusOrder, status));
  }

  /** Every entry is in exactly one of the three states when the status is
      a stage; the current entry is the order's status. */
  lemma TimelineEntryStates(status: Option<string>, i: int)
    requires 0 <= i < 5
    ensures var e := Timeline(status)[i];
      && e.status == StatusOrder[i]
      && (IndexOf(StatusOrder, status) >= 0 ==>
            (e.completed || e.current || e.pending)
            && !(e.completed && e.current) && !(e.completed && e.pending) && !(e.current && e.pending)
            && (e.current <==> status == Some(StatusOrder[i])))
      && (IndexOf(StatusOrder, status) == -1 ==> e.pending && !e.current && !e.completed)
  {
  }
}
