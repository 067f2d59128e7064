/**
 * The "quantities were adjusted" dialog (src/components/FixQuantityModal.jsx):
 * the server's changes are collected into a lookup by product code, and
 * each ordered item is shown with its changed quantity when there is one,
 * "out of stock" when the shown quantity is zero.
 *
 * `Number(x)` is a parameter (None standing for NaN).
 */
module FixQuantityModal {
  import opened Js

  /** One entry of `changes`: `Код` and `Количество`. */
  datatype Change = Change(code: Value, quantity: Value)

  /** One entry of `items`. */
  datatype FixItem = FixItem(productCode: Value, manufacturer: Value, name: Value, quantity: Value)

  /** The lookup after the first n changes: each assignment overwrites the
      entry for the change's code (the object is keyed by the string form). */
  function ChangesOf(changes: seq<Change>): map<string, Value>
  {
    if changes == [] then map[]
    else
      var last := changes[|changes| - 1];
      ChangesOf(changes[..|changes| - 1])[ToStr(last.code) := last.quantity]
  }

  /** `changesMap`, built by the `forEach`. */
  method BuildChangesMap(changes: seq<Change>) returns (m: map<string, Value>)
    ensures m == ChangesOf(changes)
  {
    m := map[];
    var i := 0;
    while i < |changes|
      invariant 0 <= i <= |changes|
      invariant m == ChangesOf(changes[..i])
    {
      assert changes[..i + 1][..i] == changes[..i];
      m := m[ToStr(changes[i].code) := changes[i].quantity];
      i := i + 1;
    }
    assert changes[..i] == changes;
  }

  /** The index of the last change naming code k, or -1. */
  function LastChangeFor(changes: seq<Change>, k: string): (r: int)
    ensures -1 <= r < |changes|
    ensures r >= 0 ==> ToStr(changes[r].code) == k &&
                       forall j :: r < j < |changes| ==> ToStr(changes[j].code) != k
    ensures r == -1 ==> forall j :: 0 <= j < |changes| ==> ToStr(changes[j].code) != k
  {
    if changes == [] then -1
    else if ToStr(changes[|changes| - 1].code) == k then |changes| - 1
    else
      assert forall j :: 0 <= j < |changes| - 1 ==> changes[..|changes| - 1][j] == changes[j];
      LastChangeFor(changes[..|changes| - 1], k)
  }

  /** A code has an entry exactly when some change names it, and the entry
      is the quantity of the LAST change naming it. */
  lemma {:induction false} LastChangeWins(changes: seq<Change>, k: string)
    ensures k in ChangesOf(changes) <==> LastChangeFor(changes, k) >= 0
    ensures k in ChangesOf(changes) ==>
      ChangesOf(changes)[k] == changes[LastChangeFor(changes, k)].quantity
    decreases |changes|
  {
    if changes != [] {
      var n := |changes| - 1;
      LastChangeWins(changes[..n], k);
      if ToStr(changes[n].code) != k && LastChangeFor(changes, k) >= 0 {
        assert changes[..n][LastChangeFor(changes, k)] == changes[LastChangeFor(changes, k)];
      }
    }
  }

  /** The quantity cell of a row. */
  datatype QuantityCell = OutOfStock | Shows(v: Value)

  /** A lookup miss and an entry holding undefined both read as undefined. */
  function Lookup(m: map<string, Value>, k: Value): Value
  {
    if ToStr(k) in m then m[ToStr(k)] else Missing
  }

  /** The changed quantity when there is one, else the item's own;
      "out of stock" when that is numerically zero. */
  function Cell(m: map<string, Value>, item: FixItem, toNumber: Value -> Option<int>): QuantityCell
  {
    var changed := Lookup(m, item.productCode);
    var shown := if changed != Missing then changed else item.quantity;
    if toNumber(shown) == Some(0) then OutOfStock else Shows(shown)
  }

  datatype FixRow = FixRow(number: int, manufacturer: Value, name: Value, quantity: QuantityCell)

  /** The table body: a placeholder row, or one row per item. */
  datatype Body = Placeholder | Rows(rows: seq<FixRow>)

  function RowsFrom(items: seq<FixItem>, m: map<string, Value>, toNumber: Value -> Option<int>, start: int)
    : (r: seq<FixRow>)
    ensures |r| == |items|
    ensures forall i :: 0 <= i < |items| ==>
      r[i] == FixRow(start + i + 1, Or(items[i].manufacturer, Str("")), items[i].name, Cell(m, items[i], toNumber))
  {
    if items == [] then []
    else [FixRow(start + 1, Or(items[0].manufacturer, Str("")), items[0].name, Cell(m, items[0], toNumber))]
         + RowsFrom(items[1..], m, toNumber, start + 1)
  }

  function Table(items: seq<FixItem>, m: map<string, Value>, toNumber: Value -> Option<int>): (b: Body)
    ensures b.Placeholder? <==> items == []
  {
    if items == [] then Placeholder else Rows(RowsFrom(items, m, toNumber, 0))
  }

  /** The rows are numbered 1..n in the order of `items`, and a product the
      server changed shows the LAST change's quantity (or "out of stock"
      when that is zero). */
  lemma {:induction false} TableShowsLastChange(items: seq<FixItem>, changes: seq<Change>,
                                                toNumber: Value -> Option<int>, i: int, j: int)
    requires 0 <= i < |items| && 0 <= j < |changes|
    requires ToStr(changes[j].code) == ToStr(items[i].productCode)
    requires changes[j].quantity != Missing
    requires forall k :: j < k < |changes| ==> ToStr(changes[k].code) != ToStr(items[i].productCode)
    ensures Table(items, ChangesOf(changes), toNumber).Rows?
    ensures Table(items, ChangesOf(changes), toNumber).rows[i].number == i + 1
    ensures Table(items, ChangesOf(changes), toNumber).rows[i].quantity ==
      if toNumber(changes[j].quantity) == Some(0) then OutOfStock else Shows(changes[j].quantity)
  {
    LastChangeWins(changes, ToStr(items[i].productCode));
  }

  /** An item that no change names shows its own quantity. */
  lemma {:induction false} UnchangedItemShowsOwnQuantity(items: seq<FixItem>, changes: seq<Change>,
                                                         toNumber: Value -> Option<int>, i: int)
    requires 0 <= i < |items|
    requires forall j :: 0 <= j < |changes| ==> ToStr(changes[j].code) != ToStr(items[i].productCode)
    ensures Table(items, ChangesOf(changes), toNumber).Rows?
    ensures Table(items, ChangesOf(changes), toNumber).rows[i].quantity ==
      if toNumber(items[i].quantity) == Some(0) then OutOfStock else Shows(items[i].quantity)
  {
    UnnamedCodeAbsent(changes, ToStr(items[i].productCode));
  }

  lemma {:induction false} UnnamedCodeAbsent(changes: seq<Change>, k: string)
    requires forall j :: 0 <= j < |changes| ==> ToStr(changes[j].code) != k
    ensures k !in ChangesOf(changes)
    decreases |changes|
  {
    if changes != [] {
      var n := |changes| - 1;
      assert forall j :: 0 <= j < n ==> changes[..n][j] == changes[j];
      UnnamedCodeAbsent(changes[..n], k);
    }
  }
}
