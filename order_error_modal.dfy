/**
 * The "ordered more than in stock" dialog (src/components/OrderErrorModal.jsx):
 * each offending item is shown with the value typed for it so far (or the
 * quantity ordered), and an edit reports the row's key and the typed
 * number to the parent.
 *
 * `Number(x)` is a parameter (None standing for NaN).
 */
module OrderErrorModal {
  import opened Js

  /** One entry of `items`. */
  datatype ErrItem = ErrItem(id: Value, code: Value, article: Value, name: Value, ordered: Value, stock: Value)

  /** The row key `item.id || item.Код || item.Артикул`. */
  function RowKey(item: ErrItem): Value
  {
    Or(Or(item.id, item.code), item.article)
  }

  /** `inputValues[key] !== undefined ? inputValues[key] : item.ordered`;
      the object is keyed by the key's string form. */
  function ShownValue(inputValues: map<string, Value>, item: ErrItem): (v: Value)
    ensures ToStr(RowKey(item)) in inputValues && inputValues[ToStr(RowKey(item))] != Missing ==>
              v == inputValues[ToStr(RowKey(item))]
    ensures (ToStr(RowKey(item)) !in inputValues || inputValues[ToStr(RowKey(item))] == Missing) ==>
              v == item.ordered
  {
    var k := ToStr(RowKey(item));
    if k in inputValues && inputValues[k] != Missing then inputValues[k] else item.ordered
  }

  datatype ErrRow = ErrRow(number: int, key: Value, name: Value, ordered: Value, value: Value)

  datatype Body = Placeholder | Rows(rows: seq<ErrRow>)

  function RowsFrom(items: seq<ErrItem>, inputValues: map<string, Value>, start: int): (r: seq<ErrRow>)
    ensures |r| == |items|
    ensures forall i :: 0 <= i < |items| ==>
      r[i] == ErrRow(start + i + 1, RowKey(items[i]), items[i].name, items[i].ordered,
                     ShownValue(inputValues, items[i]))
  {
    if items == [] then []
    else [ErrRow(start + 1, RowKey(items[0]), items[0].name, items[0].ordered, ShownValue(inputValues, items[0]))]
         + RowsFrom(items[1..], inputValues, start + 1)
  }

  function Table(items: seq<ErrItem>, inputValues: map<string, Value>): (b: Body)
    ensures b.Placeholder? <==> items == []
  {
    if items == [] then Placeholder else Rows(RowsFrom(items, inputValues, 0))
  }

  /** `onFixQuantity(key, Number(e.target.value))`: the typed text goes up
      as a number, neither clamped to `min` nor to the stock. */
  function Edit(item: ErrItem, typed: string, toNumber: string -> Option<int>): (e: (Value, Option<int>))
    ensures e.0 == RowKey(item) && e.1 == toNumber(typed)
  {
    (RowKey(item), toNumber(typed))
  }

  /** With no edits yet, every row shows the quantity ordered, numbered
      1..n in order. */
  lemma UntouchedShowsOrdered(items: seq<ErrItem>, i: int)
    requires 0 <= i < |items|
    ensures Table(items, map[]).rows[i] ==
      ErrRow(i + 1, RowKey(items[i]), items[i].name, items[i].ordered, items[i].ordered)
  {
  }

  /** Once the parent stores an edit under a row's key, that row shows it,
      and it shows it in every row sharing that key. */
  lemma EditIsShown(items: seq<ErrItem>, inputValues: map<string, Value>, i: int, v: Value)
    requires 0 <= i < |items| && v != Missing
    ensures Table(items, inputValues[ToStr(RowKey(items[i])) := v]).rows[i].value == v
    ensures forall j :: 0 <= j < |items| && ToStr(RowKey(items[j])) == ToStr(RowKey(items[i])) ==>
      Table(items, inputValues[ToStr(RowKey(items[i])) := v]).rows[j].value == v
  {
  }
}
