/**
 * The order-detail page (src/page/DetailedStory.jsx): the order is first
 * looked up in the customer's order list, then its status is requested;
 * each failure has its own message. Loaded details can be downloaded as a
 * PDF or Excel report.
 */
module DetailedStory {
  import opened Js
  import opened OrderDates

  /** A row of the customer's order list: its `id` and `code`. */
  datatype OrderRow = OrderRow(id: Value, code: Value)

  /** The list request: a reply with `res.ok`, the HTTP status and the
      body's `payload` (None when falsy), or a failure with its message. */
  datatype ListReply =
    | ListOk(ok: bool, httpStatus: nat, payload: Option<seq<OrderRow>>)
    | ListFailed(message: string)

  /** The status payload: the fields the page keeps, and `status` (None
      when falsy). */
  datatype StatusPayload = StatusPayload(fields: map<string, Value>, status: Option<map<string, string>>)

  datatype StatusReply =
    | StatusOk(ok: bool, httpStatus: nat, code: Value, payload: Option<StatusPayload>)
    | StatusFailed(message: string)

  /** `{...statusData.payload, code: foundOrder.code, timestamps}`. */
  datatype Details = Details(payload: StatusPayload, code: Value, timestamps: Timestamps)

  datatype Outcome = Loaded(details: Details) | Error(message: string)

  const NotFoundText: string := "Заказ не найден."
  const BadStatusDataText: string := "Ошибка в данных статуса заказа"
  const UnknownErrorText: string := "Неизвестная ошибка"

  function ListErrorText(httpStatus: nat): string
  {
    "Ошибка при получении заказов: " + NatToString(httpStatus)
  }

  function StatusErrorText(httpStatus: nat): string
  {
    "Ошибка при получении статуса заказа: " + NatToString(httpStatus)
  }

  /** `orders.find(order => String(order.id) === String(order_id))`. */
  function FindOrder(orders: seq<OrderRow>, orderId: string): (r: Option<OrderRow>)
    ensures r.Some? ==> r.value in orders && ToStr(r.value.id) == orderId
  {
    if orders == [] then None
    else if ToStr(orders[0].id) == orderId then Some(orders[0])
    else FindOrder(orders[1..], orderId)
  }

  /** `find` gives the first row with the id, and nothing exactly when no
      row has it. */
  lemma FindOrderFirst(orders: seq<OrderRow>, orderId: string)
    ensures FindOrder(orders, orderId).None? <==> forall i :: 0 <= i < |orders| ==> ToStr(orders[i].id) != orderId
    ensures FindOrder(orders, orderId).Some? ==>
      exists i :: 0 <= i < |orders| && orders[i] == FindOrder(orders, orderId).value &&
                  forall j :: 0 <= j < i ==> ToStr(orders[j].id) != orderId
  {
    FindOrderNone(orders, orderId);
    if FindOrder(orders, orderId).Some? {
      var i := FindOrderIndex(orders, orderId);
    }
  }

  lemma {:induction false} FindOrderNone(orders: seq<OrderRow>, orderId: string)
    ensures FindOrder(orders, orderId).None? <==> forall i :: 0 <= i < |orders| ==> ToStr(orders[i].id) != orderId
    decreases |orders|
  {
    if orders != [] && ToStr(orders[0].id) != orderId {
      var tail := orders[1..];
      FindOrderNone(tail, orderId);
      assert forall i :: 0 < i < |orders| ==> orders[i] == tail[i - 1];
    }
  }

  lemma {:induction false} FindOrderIndex(orders: seq<OrderRow>, orderId: string) returns (i: int)
    requires FindOrder(orders, orderId).Some?
    ensures 0 <= i < |orders| && orders[i] == FindOrder(orders, orderId).value
    ensures forall j :: 0 <= j < i ==> ToStr(orders[j].id) != orderId
    decreases |orders|
  {
    if ToStr(orders[0].id) == orderId {
      i := 0;
    } else {
      var tail := orders[1..];
      var t := FindOrderIndex(tail, orderId);
      i := t + 1;
      assert orders[i] == tail[t];
      forall j | 0 <= j < i ensures ToStr(orders[j].id) != orderId {
        if j > 0 {
          assert orders[j] == tail[j - 1];
        }
      }
    }
  }

  /** The first request: a failed reply is reported with its HTTP status,
      an order missing from the list as not found. */
  function ListStep(orderId: string, r: ListReply): (o: Option<Outcome>)
    ensures o.None? ==> r.ListOk? && r.ok
  {
    match r
    case ListFailed(m) => Some(Error(m))
    case ListOk(ok, httpStatus, payload) =>
      if !ok then Some(Error(ListErrorText(httpStatus)))
      else if FindOrder(if payload.Some? then payload.value else [], orderId).None?
      then Some(Error(NotFoundText))
      else None
  }

  /** The second request, once the order was found. */
  function StatusStep(found: OrderRow, r: StatusReply): Outcome
  {
    match r
    case StatusFailed(m) => Error(m)
    case StatusOk(ok, httpStatus, code, payload) =>
      if !ok then Error(StatusErrorText(httpStatus))
      else if code == Num(200) && payload.Some? then
        var raw := RawStatus(payload.value.status);
        Loaded(Details(payload.value, found.code, Stamps(raw)))
      else Error(BadStatusDataText)
  }

  /** The whole `try`/`catch`: the status request is made only when the
      order is in the list; an empty error message falls back to the
      "unknown error" text. */
  function Settle(orderId: string, list: ListReply, status: StatusReply): (o: Outcome)
    ensures o.Error? ==> o.message != ""
  {
    var first := ListStep(orderId, list);
    var raw := if first.Some? then first.value
               else StatusStep(FindOrder(if list.payload.Some? then list.payload.value else [], orderId).value, status);
    if raw.Error? && raw.message == "" then Error(UnknownErrorText) else raw
  }

  /** Loaded details always belong to an order of the list whose id is the
      page's order id, the code is that order's code, and the status reply
      was ok with code 200 and a payload. */
  lemma SettleLoadedOnlyFromList(orderId: string, list: ListReply, status: StatusReply)
    requires Settle(orderId, list, status).Loaded?
    ensures list.ListOk? && list.ok && list.payload.Some?
    ensures exists row :: row in list.payload.value && ToStr(row.id) == orderId &&
                          Settle(orderId, list, status).details.code == row.code
    ensures status.StatusOk? && status.ok && status.code == Num(200) && status.payload.Some?
  {
    var row := FindOrder(if list.payload.Some? then list.payload.value else [], orderId).value;
    assert row in list.payload.value;
  }

  /** An order id absent from the list is "not found", whatever the status
      request would have answered. */
  lemma MissingOrderIsNotFound(orderId: string, rows: seq<OrderRow>, httpStatus: nat, status: StatusReply)
    requires forall i :: 0 <= i < |rows| ==> ToStr(rows[i].id) != orderId
    ensures Settle(orderId, ListOk(true, httpStatus, Some(rows)), status) == Error(NotFoundText)
  {
    FindOrderFirst(rows, orderId);
  }

  /** A list request that is not ok reports its HTTP status, whatever the
      body and the status request. */
  lemma ListFailureReported(orderId: string, httpStatus: nat, payload: Option<seq<OrderRow>>, status: StatusReply)
    ensures Settle(orderId, ListOk(false, httpStatus, payload), status) == Error(ListErrorText(httpStatus))
  {
  }

  /** Once the order is in the list, a status reply that is not ok reports
      its HTTP status, and an ok reply without code 200 and a payload is
      "bad status data". */
  lemma {:induction false} StatusFailureReported(orderId: string, rows: seq<OrderRow>, h: nat, status: StatusReply)
    requires exists i :: 0 <= i < |rows| && ToStr(rows[i].id) == orderId
    requires status.StatusOk?
    ensures !status.ok ==>
      Settle(orderId, ListOk(true, h, Some(rows)), status) == Error(StatusErrorText(status.httpStatus))
    ensures status.ok && (status.code != Num(200) || status.payload.None?) ==>
      Settle(orderId, ListOk(true, h, Some(rows)), status) == Error(BadStatusDataText)
  {
    FindOrderFirst(rows, orderId);
  }

  /** A numeric order id matches its decimal text. */
  lemma NumericIdMatches(n: nat, code: Value)
    ensures FindOrder([OrderRow(Num(n), code)], NatToString(n)) == Some(OrderRow(Num(n), code))
  {
  }

  // ---------------------------------------------------------------------
  // Reports

  /** `format === 'xlsx' ? 'xlsx' : 'pdf'`. */
  function Extension(format: string): (ext: string)
    ensures ext == "xlsx" <==> format == "xlsx"
    ensures ext == "xlsx" || ext == "pdf"
  {
    if format == "xlsx" then "xlsx" else "pdf"
  }

  /** The saved file's name. */
  function ReportName(code: Value, format: string): (name: string)
    ensures IsPrefix("Заказ_", name) && |name| == 7 + |ToStr(code)| + |Extension(format)|
    ensures name[6..6 + |ToStr(code)|] == ToStr(code)
    ensures name[6 + |ToStr(code)|..] == "." + Extension(format)
  {
    var c, e := ToStr(code), Extension(format);
    var name := "Заказ_" + c + "." + e;
    assert name[..6] == "Заказ_" && name[6..6 + |c|] == c && name[6 + |c|..] == "." + e;
    name
  }

  /** What a download asks for: the order code, the format as passed, and
      the file name to save under. */
  datatype ReportRequest = ReportRequest(code: string, format: string, fileName: string)

  // ---------------------------------------------------------------------
  // Page state

  class StoryPage {
    var orderDetails: Option<Details>
    var loading: bool
    var isDownloading: bool
    var error: string

    constructor ()
      ensures orderDetails == None && loading && !isDownloading && error == ""
    {
      orderDetails := None;
      loading := true;
      isDownloading := false;
      error := "";
    }

    /** The effect: without a session or an order id it returns at once,
        leaving the page on its initial "loading" text; otherwise it clears
        the error and starts the list request. */
    method LoadEffect(token: Option<string>, orderId: Option<string>) returns (started: bool)
      modifies this
      ensures started == (Present(token) && Present(orderId))
      ensures orderDetails == old(orderDetails) && isDownloading == old(isDownloading)
      ensures !started ==> loading == old(loading) && error == old(error)
      ensures started ==> loading && error == ""
    {
      if !Present(token) || !Present(orderId) {
        return false;
      }
      loading := true;
      error := "";
      started := true;
    }

    method OnResponses(orderId: string, list: ListReply, status: StatusReply)
      modifies this
      ensures !loading && isDownloading == old(isDownloading)
      ensures match Settle(orderId, list, status)
              case Loaded(d) => orderDetails == Some(d) && error == old(error)
              case Error(m) => orderDetails == None && error == m
    {
      var o := Settle(orderId, list, status);
      if o.Loaded? {
        orderDetails := Some(o.details);
      } else {
        error := o.message;
        orderDetails := None;
      }
      loading := false;
    }

    /** A download button, disabled while a download runs; nothing happens
        without loaded details. */
    method DownloadClick(format: string) returns (request: Option<ReportRequest>)
      modifies this
      ensures orderDetails == old(orderDetails) && loading == old(loading) && error == old(error)
      ensures request.Some? <==> !old(isDownloading) && orderDetails.Some?
      ensures request.Some? ==>
        request.value == ReportRequest(ToStr(orderDetails.value.code), format,
                                       ReportName(orderDetails.value.code, format))
      ensures isDownloading == (old(isDownloading) || request.Some?)
    {
      if isDownloading || orderDetails.None? {
        return None;
      }
      isDownloading := true;
      var code := orderDetails.value.code;
      request := Some(ReportRequest(ToStr(code), format, ReportName(code, format)));
    }

    /** The `finally`: a failed download is only logged. */
    method DownloadSettled()
      modifies this
      ensures !isDownloading
      ensures orderDetails == old(orderDetails) && loading == old(loading) && error == old(error)
    {
      isDownloading := false;
    }
  }
}
