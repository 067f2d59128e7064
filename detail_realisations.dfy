/**
 * The order-realisation page (src/page/DetailRealisations.jsx): the guard
 * on the request, the handling of the status response, and the
 * "confirm receipt" update of the loaded details.
 */
module DetailRealisations {
  import opened Js
  import opened OrderDates

  /** `payload` of the status response: `order_id` and `status` (None
      when falsy). */
  datatype StatusPayload = StatusPayload(orderId: Value, status: Option<map<string, string>>)

  /** The status request: a reply with `res.ok`, the body's `code` and
      `payload` (None when falsy), or a failure (network or unreadable
      body) with its message. */
  datatype StatusResponse =
    | Reply(ok: bool, code: Value, payload: Option<StatusPayload>)
    | Failed(message: string)

  /** `orderDetails`: the order id, the raw status record and its dates. */
  datatype Details = Details(id: Value, status: map<string, string>, timestamps: Timestamps)

  /** What the request settles to: the details, or the text of the error
      caught. */
  datatype Outcome = Loaded(details: Details) | Error(message: string)

  const BadRequestText: string := "Неверные данные запроса"
  const NotFoundText: string := "Заказ не найден"
  const FallbackText: string := "Ошибка загрузки"

  /** The body of the `try` and its `catch`: a reply that is not ok, whose
      code is not 200 or that has no payload is "not found"; a failure
      shows its own message, or the fallback when that is empty. */
  function Settle(r: StatusResponse): (o: Outcome)
    ensures o.Error? ==> o.message != ""
    ensures o.Loaded? <==> r.Reply? && r.ok && r.code == Num(200) && r.payload.Some?
    ensures r.Reply? && o.Error? ==> o.message == NotFoundText
  {
    match r
    case Failed(m) => Error(if m != "" then m else FallbackText)
    case Reply(ok, code, payload) =>
      if !ok || code != Num(200) || payload.None? then Error(NotFoundText)
      else
        var raw := RawStatus(payload.value.status);
        Loaded(Details(payload.value.orderId, raw, Stamps(raw)))
  }

  /** Loaded details carry the payload's order id and the status record as
      sent (empty when the payload has none), with the dates built from it. */
  lemma SettleLoaded(p: StatusPayload)
    ensures Settle(Reply(true, Num(200), Some(p))) ==
      Loaded(Details(p.orderId, RawStatus(p.status), Stamps(RawStatus(p.status))))
    ensures p.status.None? ==> Settle(Reply(true, Num(200), Some(p))).details.status == map[]
  {
  }

  // ---------------------------------------------------------------------
  // Confirming receipt

  /** The argument `handleStatusConfirm` is called with: nothing, a date
      string, or, from the status component's button, the click event. */
  datatype ConfirmArg = NoArg | DateText(s: string) | ClickEvent

  /** The updater as written, with `now` the current local time text. The
      click event is a truthy object, so it reaches `normalizeDate`, which
      calls its missing `trim` and throws: None stands for that TypeError. */
  function ConfirmAsWritten(prev: Option<Details>, arg: ConfirmArg, now: string): Option<Option<Details>>
  {
    if prev.None? then Some(prev)
    else match arg
      case ClickEvent => None
      case NoArg => Some(Some(Delivered(prev.value, NormalizeDate(Some(now)))))
      case DateText(s) =>
        Some(Some(Delivered(prev.value, NormalizeDate(Some(if s != "" then s else now)))))
  }

  /** The status record with `Доставлен: 'Да'` and the delivered date
      replaced; everything else kept. */
  function Delivered(d: Details, date: string): Details
  {
    d.(status := d.status["Доставлен" := "Да"], timestamps := d.timestamps.(deliveredAt := date))
  }

  /** Pressing the button on loaded details throws. */
  lemma ConfirmButtonThrowsAsWritten(d: Details, now: string)
    ensures ConfirmAsWritten(Some(d), ClickEvent, now) == None
  {
  }

  /** The intended updater: the button's event carries no date, so "now"
      is used, exactly as with no argument. */
  function Confirm(prev: Option<Details>, arg: ConfirmArg, now: string): (r: Option<Details>)
    ensures prev.None? <==> r.None?
    ensures r.Some? ==> r.value.id == prev.value.id && "Доставлен" in r.value.status
                        && r.value.status["Доставлен"] == "Да"
    ensures r.Some? ==> forall k :: k in prev.value.status && k != "Доставлен" ==>
                          k in r.value.status && r.value.status[k] == prev.value.status[k]
    ensures r.Some? ==> r.value.status.Keys == prev.value.status.Keys + {"Доставлен"}
    ensures r.Some? ==> r.value.timestamps.(deliveredAt := prev.value.timestamps.deliveredAt)
                        == prev.value.timestamps
    ensures r.Some? && (arg.ClickEvent? || arg.NoArg? || arg == DateText("")) ==>
              r.value.timestamps.deliveredAt == NormalizeDate(Some(now))
    ensures r.Some? && arg.DateText? && arg.s != "" ==>
              r.value.timestamps.deliveredAt == NormalizeDate(Some(arg.s))
  {
    if prev.None? then prev
    else
      var date := if arg.DateText? && arg.s != "" then arg.s else now;
      Some(Delivered(prev.value, NormalizeDate(Some(date))))
  }

  /** The two agree wherever the original does not throw. */
  lemma ConfirmAgreesWhenNoEvent(prev: Option<Details>, arg: ConfirmArg, now: string)
    requires !arg.ClickEvent? || prev.None?
    ensures ConfirmAsWritten(prev, arg, now) == Some(Confirm(prev, arg, now))
  {
  }

  /** Confirming twice with the same date is confirming once. */
  lemma ConfirmIdempotent(prev: Option<Details>, arg: ConfirmArg, now: string)
    ensures Confirm(Confirm(prev, arg, now), arg, now) == Confirm(prev, arg, now)
  {
    if prev.Some? {
      var d := prev.value;
      var date := NormalizeDate(Some(if arg.DateText? && arg.s != "" then arg.s else now));
      assert d.status["Доставлен" := "Да"]["Доставлен" := "Да"] == d.status["Доставлен" := "Да"];
    }
  }

  // ---------------------------------------------------------------------
  // Page state

  class RealisationPage {
    var orderDetails: Option<Details>
    var loading: bool
    var errorMsg: string

    constructor ()
      ensures orderDetails == None && loading && errorMsg == ""
    {
      orderDetails := None;
      loading := true;
      errorMsg := "";
    }

    /** The effect: without a session or an order id it stops loading and
        shows the bad-request text; otherwise it clears the error and
        requests the order's status. */
    method LoadEffect(token: Option<string>, orderId: Option<string>) returns (requested: Option<string>)
      modifies this
      ensures orderDetails == old(orderDetails)
      ensures if !Present(token) || !Present(orderId)
              then requested == None && !loading && errorMsg == BadRequestText
              else requested == orderId && loading && errorMsg == ""
    {
      if !Present(token) || !Present(orderId) {
        loading := false;
        errorMsg := BadRequestText;
        return None;
      }
      loading := true;
      errorMsg := "";
      requested := orderId;
    }

    method OnResponse(r: StatusResponse)
      modifies this
      ensures !loading
      ensures match Settle(r)
              case Loaded(d) => orderDetails == Some(d) && errorMsg == old(errorMsg)
              case Error(m) => orderDetails == None && errorMsg == m
    {
      var o := Settle(r);
      if o.Loaded? {
        orderDetails := Some(o.details);
      } else {
        errorMsg := o.message;
        orderDetails := None;
      }
      loading := false;
    }

    /** The confirm button, with the corrected updater. */
    method ConfirmClick(now: string)
      modifies this
      ensures orderDetails == Confirm(old(orderDetails), ClickEvent, now)
      ensures loading == old(loading) && errorMsg == old(errorMsg)
    {
      orderDetails := Confirm(orderDetails, ClickEvent, now);
    }
  }
}
