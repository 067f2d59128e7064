/**
 * The order-status projection of src/components/CircularOrderStatus.jsx:
 * the six stages in their fixed order, the table from the server's status
 * names to stages, the index of the current stage, and which circles, arcs
 * and labels are drawn as active. The geometry of the drawing is not part
 * of this model.
 */
module OrderStatus {
  import opened Js

  /** `STATUS_ORDER`. */
  const StatusOrder: seq<string> :=
    ["Оформлено", "В обработке", "В сборке", "Готов к доставке", "В пути", "Доставлен"]

  /** The names the server sends, i.e. the keys of `API_STATUS_TO_STEP_STATUS`. */
  const ApiNames: seq<string> :=
    ["Оформлено", "В обработке", "К отгрузке", "Отгружен", "В пути", "Доставлен"]

  /** The `apiStatus` prop: a string, or a value of any other kind (the
      status record object the detail pages pass, undefined, a number). */
  datatype ApiStatus = Name(s: string) | NotAString

  /** `API_STATUS_TO_STEP_STATUS[apiStatus] || null`. A non-string indexes
      the table by its string form, which is none of the keys; inherited
      properties such as `constructor` give a non-stage value, which the
      index lookup below treats exactly like null. */
  function StepOf(v: ApiStatus): Option<string>
  {
    match v
    case NotAString => None
    case Name(s) =>
      if s == "Оформлено" then Some("Оформлено")
      else if s == "В обработке" then Some("В обработке")
      else if s == "К отгрузке" then Some("В сборке")
      else if s == "Отгружен" then Some("Готов к доставке")
      else if s == "В пути" then Some("В пути")
      else if s == "Доставлен" then Some("Доставлен")
      else None
  }

  /** `xs.indexOf(x)`: the first index holding x, or -1. */
  function IndexOf(xs: seq<string>, x: string): (r: int)
    ensures -1 <= r < |xs|
    ensures r >= 0 ==> xs[r] == x && forall j :: 0 <= j < r ==> xs[j] != x
    ensures r == -1 <==> x !in xs
  {
    if xs == [] then -1
    else if xs[0] == x then 0
    else
      var r := IndexOf(xs[1..], x);
      assert x in xs[1..] ==> x in xs;
      assert x in xs && xs[0] != x ==> x in xs[1..];
      if r == -1 then -1 else r + 1
  }

  /** `currentIndex`. */
  function CurrentIndex(v: ApiStatus): int
  {
    match StepOf(v)
    case None => -1
    case Some(step) => IndexOf(StatusOrder, step)
  }

  /** What the component draws, minus geometry: which of the six circles are
      filled, which of the five arcs are active, which label is emphasised,
      and whether the order counts as delivered. The confirm button is drawn
      unconditionally and is not part of the view. */
  datatype StatusView = StatusView(reached: seq<bool>, arcs: seq<bool>, labels: seq<bool>,
                                   delivered: bool)

  function View(v: ApiStatus): StatusView
  {
    var c := CurrentIndex(v);
    StatusView(
      seq(|StatusOrder|, i => i <= c),
      seq(|StatusOrder| - 1, i => i < c),
      seq(|StatusOrder|, i => i == c),
      StepOf(v) == Some("Доставлен"))
  }

  lemma StageNames()
    ensures StepOf(Name("К отгрузке")) == Some("В сборке")
    ensures StepOf(Name("Отгружен")) == Some("Готов к доставке")
    ensures forall i :: 0 <= i < 6 && i != 2 && i != 3 ==> ApiNames[i] == StatusOrder[i]
  {
  }

  /** Each of the six server names lands on the stage at the same position,
      so 'К отгрузке' is stage 2 and 'Отгружен' stage 3; any other value,
      including a non-string, gives -1. */
  lemma {:induction false} CurrentIndexTable(v: ApiStatus)
    ensures -1 <= CurrentIndex(v) < 6
    ensures forall i :: 0 <= i < 6 && v == Name(ApiNames[i]) ==> CurrentIndex(v) == i
    ensures CurrentIndex(v) >= 0 <==> v.Name? && v.s in ApiNames
  {
    forall i | 0 <= i < 6 && v == Name(ApiNames[i])
      ensures CurrentIndex(v) == i
    {
      NamedStage(i);
    }
    if v.Name? && v.s !in ApiNames {
      UnnamedStage(v.s);
    }
  }

  /** A string that is not one of the server names has no stage. */
  lemma UnnamedStage(s: string)
    requires s !in ApiNames
    ensures StepOf(Name(s)) == None
  {
    assert ApiNames[0] == "Оформлено" && ApiNames[1] == "В обработке";
    assert ApiNames[2] == "К отгрузке" && ApiNames[3] == "Отгружен";
    assert ApiNames[4] == "В пути" && ApiNames[5] == "Доставлен";
  }

  /** The server name at position i lands on stage i. */
  lemma NamedStage(i: int)
    requires 0 <= i < 6
    ensures CurrentIndex(Name(ApiNames[i])) == i
  {
    assert StatusOrder[..1] == ["Оформлено"];
    if i == 0 {
      assert StatusOrder[0] == "Оформлено";
    } else if i == 1 {
      assert StatusOrder[1] == "В обработке" && StatusOrder[0] != "В обработке";
    } else if i == 2 {
      assert StatusOrder[2] == "В сборке";
      assert forall j :: 0 <= j < 2 ==> StatusOrder[j] != "В сборке";
    } else if i == 3 {
      assert StatusOrder[3] == "Готов к доставке";
      assert forall j :: 0 <= j < 3 ==> StatusOrder[j] != "Готов к доставке";
    } else if i == 4 {
      assert StatusOrder[4] == "В пути";
      assert forall j :: 0 <= j < 4 ==> StatusOrder[j] != "В пути";
    } else {
      assert StatusOrder[5] == "Доставлен";
      assert forall j :: 0 <= j < 5 ==> StatusOrder[j] != "Доставлен";
    }
  }

  /** The filled circles are always a prefix of the six stages, ending at
      the current one; an unknown status fills none. */
  lemma ReachedIsPrefix(v: ApiStatus)
    ensures |View(v).reached| == 6
    ensures forall i, j :: 0 <= i <= j < 6 && View(v).reached[j] ==> View(v).reached[i]
    ensures forall i :: 0 <= i < 6 ==> (View(v).reached[i] <==> i <= CurrentIndex(v))
    ensures CurrentIndex(v) == -1 ==> forall i :: 0 <= i < 6 ==> !View(v).reached[i]
  {
  }

  /** There are five arcs; arc i, between stages i and i + 1, is active
      exactly when the stage after it is reached. */
  lemma ArcsFollowStages(v: ApiStatus)
    ensures |View(v).arcs| == 5
    ensures forall i :: 0 <= i < 5 ==> (View(v).arcs[i] <==> View(v).reached[i + 1])
    ensures forall i :: 0 <= i < 5 ==> (View(v).arcs[i] <==> i < CurrentIndex(v))
  {
  }

  /** At most one label is emphasised, and exactly one, the current stage,
      when the status is recognised. */
  lemma {:induction false} OneLabelAtMost(v: ApiStatus)
    ensures |View(v).labels| == 6
    ensures (set i | 0 <= i < 6 && View(v).labels[i]) ==
            if CurrentIndex(v) >= 0 then {CurrentIndex(v)} else {}
  {
    CurrentIndexTable(v);
    var c := CurrentIndex(v);
    var lit := set i | 0 <= i < 6 && View(v).labels[i];
    if c >= 0 {
      assert c in lit;
    }
    assert forall i :: i in lit ==> i == c;
  }

  /** `isDelivered` holds exactly when the current stage is the last one. */
  lemma DeliveredIsLastStage(v: ApiStatus)
    ensures View(v).delivered <==> CurrentIndex(v) == 5
  {
    CurrentIndexTable(v);
    if StepOf(v).Some? {
      assert StatusOrder[5] == "Доставлен";
      assert forall j :: 0 <= j < 5 ==> StatusOrder[j] != "Доставлен";
    }
  }

  /** Both order-detail pages hand the component the whole status record,
      which is not a string: as written, no circle is filled there. */
  lemma RecordStatusShowsNothing()
    ensures CurrentIndex(NotAString) == -1
    ensures forall i :: 0 <= i < 6 ==> !View(NotAString).reached[i]
  {
  }
}
