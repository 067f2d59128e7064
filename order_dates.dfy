/**
 * The stage dates of an order, shared by both order-detail pages
 * (src/page/DetailRealisations.jsx and src/page/DetailedStory.jsx each
 * define the same `normalizeDate` and build the same six timestamps from
 * the raw status record).
 *
 * The raw status record is a map from field name to string; a field that
 * is absent is simply not in the map.
 */
module OrderDates {
  import opened Js

  /** The server's "no date" value. */
  const Sentinel: string := "01.01.0001 0:00:00"

  /** What is shown for a missing date. */
  const Dash: string := "—"

  /** `normalizeDate`. */
  function NormalizeDate(d: Option<string>): (r: string)
    ensures r != Dash ==> d == Some(r)
  {
    if d.None? || d.value == "" || d.value == Sentinel || IsBlank(d.value) then Dash else d.value
  }

  /** The dash is shown exactly for an absent, empty, all-whitespace or
      sentinel date (or for a date that is already the dash). */
  lemma NormalizeDateDash(d: Option<string>)
    ensures NormalizeDate(d) == Dash <==>
      d.None? || d.value == Sentinel || IsBlank(d.value) || d.value == Dash
  {
  }

  /** A shown date is never blank and never the sentinel, so normalising
      twice is normalising once. */
  lemma {:induction false} NormalizeDateIdempotent(d: Option<string>)
    ensures !IsBlank(NormalizeDate(d)) && NormalizeDate(d) != Sentinel
    ensures NormalizeDate(Some(NormalizeDate(d))) == NormalizeDate(d)
  {
    assert !IsSpace(Dash[0]);
    assert Dash != Sentinel;
    assert Dash != "";
  }

  /** The six stage dates a detail page shows. */
  datatype Timestamps = Timestamps(createdAt: string, processedAt: string, assembledAt: string,
                                   readyAt: string, inTransitAt: string, deliveredAt: string)

  function Field(rec: map<string, string>, name: string): Option<string>
  {
    if name in rec then Some(rec[name]) else None
  }

  /** `payload.status || {}`: a falsy status reads as the empty record. */
  function RawStatus(status: Option<map<string, string>>): map<string, string>
  {
    if status.Some? then status.value else map[]
  }

  /** The timestamps object built from the raw status record. */
  function Stamps(rec: map<string, string>): Timestamps
  {
    Timestamps(
      NormalizeDate(Field(rec, "ДатаОформлено")),
      NormalizeDate(Field(rec, "ДатаКОбработке")),
      NormalizeDate(Field(rec, "ДатаКСборке")),
      NormalizeDate(Field(rec, "ДатаГотовКДоставке")),
      NormalizeDate(Field(rec, "ДатаВПути")),
      NormalizeDate(Field(rec, "ДатаДоставлен")))
  }

  function AllStamps(t: Timestamps): seq<string>
  {
    [t.createdAt, t.processedAt, t.assembledAt, t.readyAt, t.inTransitAt, t.deliveredAt]
  }

  /** No status record shows six dashes. */
  lemma MissingStatusIsAllDashes()
    ensures forall s :: s in AllStamps(Stamps(RawStatus(None))) ==> s == Dash
  {
  }

  /** Every stage shows either its own field of the record unchanged or the
      dash, never a blank or the sentinel; a field absent from the record
      shows the dash. */
  lemma {:induction false} StampsFromRecord(rec: map<string, string>)
    ensures forall s :: s in AllStamps(Stamps(rec)) ==> !IsBlank(s) && s != Sentinel
    ensures Stamps(rec).createdAt != Dash ==> rec["ДатаОформлено"] == Stamps(rec).createdAt
    ensures Stamps(rec).processedAt != Dash ==> rec["ДатаКОбработке"] == Stamps(rec).processedAt
    ensures Stamps(rec).assembledAt != Dash ==> rec["ДатаКСборке"] == Stamps(rec).assembledAt
    ensures Stamps(rec).readyAt != Dash ==> rec["ДатаГотовКДоставке"] == Stamps(rec).readyAt
    ensures Stamps(rec).inTransitAt != Dash ==> rec["ДатаВПути"] == Stamps(rec).inTransitAt
    ensures Stamps(rec).deliveredAt != Dash ==> rec["ДатаДоставлен"] == Stamps(rec).deliveredAt
    ensures "ДатаОформлено" !in rec ==> Stamps(rec).createdAt == Dash
    ensures "ДатаКОбработке" !in rec ==> Stamps(rec).processedAt == Dash
    ensures "ДатаКСборке" !in rec ==> Stamps(rec).assembledAt == Dash
    ensures "ДатаГотовКДоставке" !in rec ==> Stamps(rec).readyAt == Dash
    ensures "ДатаВПути" !in rec ==> Stamps(rec).inTransitAt == Dash
    ensures "ДатаДоставлен" !in rec ==> Stamps(rec).deliveredAt == Dash
  {
    var t := Stamps(rec);
    NormalizeDateIdempotent(Field(rec, "ДатаОформлено"));
    NormalizeDateIdempotent(Field(rec, "ДатаКОбработке"));
    NormalizeDateIdempotent(Field(rec, "ДатаКСборке"));
    NormalizeDateIdempotent(Field(rec, "ДатаГотовКДоставке"));
    NormalizeDateIdempotent(Field(rec, "ДатаВПути"));
    NormalizeDateIdempotent(Field(rec, "ДатаДоставлен"));
  }
}
