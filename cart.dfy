/**
 * The per-user cart store (src/context/CartContext.jsx): an ordered list of
 * lines, identified by the fallback key `id || Код || Артикул`, with the
 * updaters the provider exposes and its load-once / save-after-load
 * protocol against the browser's storage under `cart_<userId>`.
 *
 * The updaters are pure list transforms (map, filter, reduce) and are
 * functions here; the provider's state, its "has loaded" flag and the
 * storage are a class whose methods are the effects and the exposed calls.
 */
module Cart {
  import opened Js

  /** A cart line, or a product record handed to `addToCart`.
      `quantity` is 0 when the field is 0 or absent (both falsy);
      `price` is what `parseFloat(Цена)` gives, None standing for NaN. */
  datatype Line = Line(id: Value, code: Value, article: Value, name: Value,
                       price: Option<int>, quantity: int)

  /** The line identity `item.id || item['Код'] || item['Артикул']`. */
  function Key(l: Line): Value
  {
    Or(Or(l.id, l.code), l.article)
  }

  predicate HasKey(l: Line)
  {
    Truthy(Key(l))
  }

  /** `quantity || 1`. */
  function QtyOr1(q: int): (r: int)
    ensures r != 0
    ensures q != 0 ==> r == q
    ensures q >= 0 ==> r >= 1
  {
    if q == 0 then 1 else q
  }

  predicate HasLineWithKey(s: seq<Line>, k: Value)
  {
    exists i :: 0 <= i < |s| && Key(s[i]) == k
  }

  ghost predicate KeysDistinct(s: seq<Line>)
  {
    forall i, j :: 0 <= i < j < |s| ==> Key(s[i]) != Key(s[j])
  }

  ghost predicate AllKeyed(s: seq<Line>)
  {
    forall i :: 0 <= i < |s| ==> HasKey(s[i])
  }

  ghost predicate AllPositive(s: seq<Line>)
  {
    forall i :: 0 <= i < |s| ==> s[i].quantity >= 1
  }

  /** The invariants the cart's updaters keep: every line has a key, keys
      are pairwise distinct, quantities are positive. */
  ghost predicate WellFormed(s: seq<Line>)
  {
    AllKeyed(s) && KeysDistinct(s) && AllPositive(s)
  }

  // ---------------------------------------------------------------------
  // The list transforms behind the updaters

  /** `map(item => key(item) === k ? {...item, quantity: (item.quantity || 1) + delta} : item)` */
  function Bump(s: seq<Line>, k: Value, delta: int): (r: seq<Line>)
    ensures |r| == |s|
    ensures forall i :: 0 <= i < |s| ==>
      r[i] == if Key(s[i]) == k then s[i].(quantity := QtyOr1(s[i].quantity) + delta) else s[i]
  {
    if s == [] then []
    else [if Key(s[0]) == k then s[0].(quantity := QtyOr1(s[0].quantity) + delta) else s[0]]
         + Bump(s[1..], k, delta)
  }

  /** `map(item => key(item) === k ? {...item, quantity: q} : item)` */
  function SetMatching(s: seq<Line>, k: Value, q: int): (r: seq<Line>)
    ensures |r| == |s|
    ensures forall i :: 0 <= i < |s| ==>
      r[i] == if Key(s[i]) == k then s[i].(quantity := q) else s[i]
  {
    if s == [] then []
    else [if Key(s[0]) == k then s[0].(quantity := q) else s[0]] + SetMatching(s[1..], k, q)
  }

  /** `filter(item => key(item) !== k)` */
  function Without(s: seq<Line>, k: Value): seq<Line>
  {
    if s == [] then []
    else if Key(s[0]) != k then [s[0]] + Without(s[1..], k)
    else Without(s[1..], k)
  }

  /** The reduce of `decreaseQuantity`: a matching line is pushed with
      `(quantity || 1) - 1` when that is positive and dropped otherwise;
      every other line is pushed as it is. Recursing on the head builds the
      same list as the left-to-right reduce. */
  function Decrement(s: seq<Line>, k: Value): seq<Line>
  {
    if s == [] then [] else DecrementHead(s[0], k) + Decrement(s[1..], k)
  }

  /** What the reduce pushes for one line. */
  function DecrementHead(l: Line, k: Value): seq<Line>
  {
    if Key(l) != k then [l]
    else if QtyOr1(l.quantity) - 1 > 0 then [l.(quantity := QtyOr1(l.quantity) - 1)]
    else []
  }

  /** `filter(item => item.id || item['Код'] || item['Артикул'])`, applied to
      the parsed storage entry on load. */
  function KeepKeyed(s: seq<Line>): seq<Line>
  {
    if s == [] then []
    else if HasKey(s[0]) then [s[0]] + KeepKeyed(s[1..])
    else KeepKeyed(s[1..])
  }

  // ---------------------------------------------------------------------
  // The updaters

  /** The line `addToCart` appends for a product not yet in the cart:
      `{...product, id: productKey, quantity: quantityToAdd}`. */
  function NewLine(p: Line): Line
  {
    p.(id := Key(p), quantity := QtyOr1(p.quantity))
  }

  function AddLine(s: seq<Line>, p: Line): seq<Line>
  {
    var productKey := Key(p);
    if !Truthy(productKey) then s
    else if HasLineWithKey(s, productKey) then Bump(s, productKey, QtyOr1(p.quantity))
    else s + [NewLine(p)]
  }

  function UpdateLine(s: seq<Line>, k: Value, qty: int): seq<Line>
  {
    if qty < 1 then s else SetMatching(s, k, qty)
  }

  function IncrementLine(s: seq<Line>, k: Value): seq<Line>
  {
    Bump(s, k, 1)
  }

  function RemoveLine(s: seq<Line>, k: Value): seq<Line>
  {
    Without(s, k)
  }

  /** `cartItems.reduce((sum, item) => sum + (item.quantity || 1), 0)` */
  function Count(s: seq<Line>): int
  {
    if s == [] then 0 else QtyOr1(s[0].quantity) + Count(s[1..])
  }

  /** Every operation the provider exposes, as data. */
  datatype CartOp =
    | Add(product: Line)
    | Update(key: Value, qty: int)
    | Increase(key: Value)
    | Decrease(key: Value)
    | Remove(key: Value)
    | Clear

  function Apply(s: seq<Line>, op: CartOp): seq<Line>
  {
    match op
    case Add(p) => AddLine(s, p)
    case Update(k, q) => UpdateLine(s, k, q)
    case Increase(k) => IncrementLine(s, k)
    case Decrease(k) => Decrement(s, k)
    case Remove(k) => RemoveLine(s, k)
    case Clear => []
  }

  // ---------------------------------------------------------------------
  // Helper facts

  lemma {:induction false} BumpAppend(a: seq<Line>, b: seq<Line>, k: Value, d: int)
    ensures Bump(a + b, k, d) == Bump(a, k, d) + Bump(b, k, d)
  {
    var r, t := Bump(a + b, k, d), Bump(a, k, d) + Bump(b, k, d);
    forall i | 0 <= i < |a + b| ensures r[i] == t[i] {
      if i < |a| {
        assert (a + b)[i] == a[i];
      } else {
        assert (a + b)[i] == b[i - |a|];
      }
    }
  }

  lemma BumpNoMatch(s: seq<Line>, k: Value, d: int)
    requires !HasLineWithKey(s, k)
    ensures Bump(s, k, d) == s
  {
  }

  lemma {:induction false} WithoutAppend(a: seq<Line>, b: seq<Line>, k: Value)
    ensures Without(a + b, k) == Without(a, k) + Without(b, k)
    decreases |a|
  {
    if a != [] {
      assert (a + b)[0] == a[0] && (a + b)[1..] == a[1..] + b;
      WithoutAppend(a[1..], b, k);
    } else {
      assert a + b == b;
    }
  }

  lemma {:induction false} WithoutNoMatch(s: seq<Line>, k: Value)
    requires !HasLineWithKey(s, k)
    ensures Without(s, k) == s
    decreases |s|
  {
    if s != [] {
      assert !HasLineWithKey(s[1..], k) by {
        forall i | 0 <= i < |s[1..]| ensures Key(s[1..][i]) != k {
          assert s[1..][i] == s[i + 1];
        }
      }
      WithoutNoMatch(s[1..], k);
    }
  }

  lemma {:induction false} WithoutKeys(s: seq<Line>, k: Value, v: Value)
    ensures HasLineWithKey(Without(s, k), v) <==> v != k && HasLineWithKey(s, v)
    decreases |s|
  {
    if s != [] {
      WithoutKeys(s[1..], k, v);
      HasKeyCons(s[0], s[1..], v);
      assert [s[0]] + s[1..] == s;
      if Key(s[0]) != k {
        HasKeyCons(s[0], Without(s[1..], k), v);
      }
    }
  }

  lemma HasKeyCons(x: Line, t: seq<Line>, v: Value)
    ensures HasLineWithKey([x] + t, v) <==> Key(x) == v || HasLineWithKey(t, v)
  {
    if HasLineWithKey([x] + t, v) {
      var i :| 0 <= i < |[x] + t| && Key(([x] + t)[i]) == v;
      if i > 0 {
        assert t[i - 1] == ([x] + t)[i];
      }
    }
    if HasLineWithKey(t, v) {
      var i :| 0 <= i < |t| && Key(t[i]) == v;
      assert ([x] + t)[i + 1] == t[i];
    }
    if Key(x) == v {
      assert ([x] + t)[0] == x;
    }
  }

  lemma DistinctCons(x: Line, t: seq<Line>)
    ensures KeysDistinct([x] + t) <==> !HasLineWithKey(t, Key(x)) && KeysDistinct(t)
  {
    var s := [x] + t;
    if KeysDistinct(s) {
      forall i, j | 0 <= i < j < |t| ensures Key(t[i]) != Key(t[j]) {
        assert s[i + 1] == t[i] && s[j + 1] == t[j];
      }
      forall i | 0 <= i < |t| ensures Key(t[i]) != Key(x) {
        assert s[0] == x && s[i + 1] == t[i];
      }
    }
    if !HasLineWithKey(t, Key(x)) && KeysDistinct(t) {
      forall i, j | 0 <= i < j < |s| ensures Key(s[i]) != Key(s[j]) {
        assert s[j] == t[j - 1];
        if i > 0 {
          assert s[i] == t[i - 1];
        }
      }
    }
  }

  /** In a cart with distinct keys, the line with a given key sits between
      two parts that do not mention that key. */
  lemma SplitAtKey(s: seq<Line>, k: Value) returns (i: nat)
    requires KeysDistinct(s) && HasLineWithKey(s, k)
    ensures i < |s| && Key(s[i]) == k
    ensures s == s[..i] + [s[i]] + s[i + 1..]
    ensures !HasLineWithKey(s[..i], k) && !HasLineWithKey(s[i + 1..], k)
  {
    i :| 0 <= i < |s| && Key(s[i]) == k;
    assert s == s[..i] + [s[i]] + s[i + 1..];
    forall j | 0 <= j < |s[..i]| ensures Key(s[..i][j]) != k {
      assert s[..i][j] == s[j];
    }
    var tail := s[i + 1..];
    forall j | 0 <= j < |tail| ensures Key(tail[j]) != k {
      assert tail[j] == s[i + 1 + j];
    }
  }

  lemma {:induction false} DecrementAppend(a: seq<Line>, b: seq<Line>, k: Value)
    ensures Decrement(a + b, k) == Decrement(a, k) + Decrement(b, k)
    decreases |a|
  {
    if a != [] {
      var c := a + b;
      assert c[0] == a[0] && c[1..] == a[1..] + b;
      DecrementAppend(a[1..], b, k);
      var h := DecrementHead(a[0], k);
      assert h + (Decrement(a[1..], k) + Decrement(b, k)) == (h + Decrement(a[1..], k)) + Decrement(b, k);
    } else {
      assert a + b == b;
    }
  }

  lemma {:induction false} DecrementNoMatch(s: seq<Line>, k: Value)
    requires !HasLineWithKey(s, k)
    ensures Decrement(s, k) == s
    decreases |s|
  {
    if s != [] {
      HasKeyCons(s[0], s[1..], k);
      assert [s[0]] + s[1..] == s;
      DecrementNoMatch(s[1..], k);
    }
  }

  lemma {:induction false} DecrementKeys(s: seq<Line>, k: Value, v: Value)
    ensures HasLineWithKey(Decrement(s, k), v) ==> HasLineWithKey(s, v)
    decreases |s|
  {
    if s != [] {
      DecrementKeys(s[1..], k, v);
      HasKeyCons(s[0], s[1..], v);
      assert [s[0]] + s[1..] == s;
      var rest := Decrement(s[1..], k);
      var newQty := QtyOr1(s[0].quantity) - 1;
      if Key(s[0]) == k && newQty > 0 {
        HasKeyCons(s[0].(quantity := newQty), rest, v);
      } else if Key(s[0]) != k {
        HasKeyCons(s[0], rest, v);
      }
    }
  }

  lemma {:induction false} DecrementKeepsOthers(s: seq<Line>, k: Value)
    ensures Without(Decrement(s, k), k) == Without(s, k)
    decreases |s|
  {
    if s != [] {
      DecrementKeepsOthers(s[1..], k);
      var rest := Decrement(s[1..], k);
      var newQty := QtyOr1(s[0].quantity) - 1;
      if Key(s[0]) == k {
        if newQty > 0 {
          WithoutAppend([s[0].(quantity := newQty)], rest, k);
        } else {
          assert Decrement(s, k) == rest;
        }
      } else {
        WithoutAppend([s[0]], rest, k);
      }
    }
  }

  lemma {:induction false} DecrementWellFormed(s: seq<Line>, k: Value)
    requires WellFormed(s)
    ensures WellFormed(Decrement(s, k))
    decreases |s|
  {
    if s != [] {
      var t := s[1..];
      assert [s[0]] + t == s;
      DistinctCons(s[0], t);
      assert WellFormed(t);
      DecrementWellFormed(t, k);
      var rest := Decrement(t, k);
      DecrementKeys(t, k, Key(s[0]));
      var newQty := QtyOr1(s[0].quantity) - 1;
      if Key(s[0]) == k && newQty > 0 {
        DistinctCons(s[0].(quantity := newQty), rest);
      } else if Key(s[0]) != k {
        DistinctCons(s[0], rest);
      }
    }
  }

  lemma {:induction false} WithoutWellFormed(s: seq<Line>, k: Value)
    requires WellFormed(s)
    ensures WellFormed(Without(s, k))
    decreases |s|
  {
    if s != [] {
      var t := s[1..];
      assert [s[0]] + t == s;
      DistinctCons(s[0], t);
      WithoutWellFormed(t, k);
      WithoutKeys(t, k, Key(s[0]));
      if Key(s[0]) != k {
        DistinctCons(s[0], Without(t, k));
      }
    }
  }

  /** Changing only quantities keeps every key, so distinctness carries over. */
  lemma SameKeysDistinct(s: seq<Line>, r: seq<Line>)
    requires |r| == |s| && KeysDistinct(s)
    requires forall i :: 0 <= i < |s| ==> Key(r[i]) == Key(s[i])
    ensures KeysDistinct(r)
  {
  }

  lemma SameKeysHas(s: seq<Line>, r: seq<Line>, v: Value)
    requires |r| == |s|
    requires forall i :: 0 <= i < |s| ==> Key(r[i]) == Key(s[i])
    ensures HasLineWithKey(r, v) <==> HasLineWithKey(s, v)
  {
    if HasLineWithKey(r, v) {
      var i :| 0 <= i < |r| && Key(r[i]) == v;
      assert Key(s[i]) == v;
    }
    if HasLineWithKey(s, v) {
      var i :| 0 <= i < |s| && Key(s[i]) == v;
      assert Key(r[i]) == v;
    }
  }

  /** A quantity-only map over a cart keeps the lines of other keys. */
  lemma {:induction false} QuantityMapKeepsOthers(s: seq<Line>, r: seq<Line>, k: Value)
    requires |r| == |s|
    requires forall i :: 0 <= i < |s| ==> Key(r[i]) == Key(s[i])
    requires forall i :: 0 <= i < |s| && Key(s[i]) != k ==> r[i] == s[i]
    ensures Without(r, k) == Without(s, k)
    decreases |s|
  {
    if s != [] {
      QuantityMapKeepsOthers(s[1..], r[1..], k);
    }
  }

  lemma {:induction false} CountAppend(a: seq<Line>, b: seq<Line>)
    ensures Count(a + b) == Count(a) + Count(b)
    decreases |a|
  {
    if a != [] {
      assert (a + b)[0] == a[0] && (a + b)[1..] == a[1..] + b;
      CountAppend(a[1..], b);
    } else {
      assert a + b == b;
    }
  }

  // ---------------------------------------------------------------------
  // What the updaters promise

  /** `addToCart` of a product with no `id`, `Код` or `Артикул` leaves the
      cart as it is. */
  lemma AddKeylessIsNoop(s: seq<Line>, p: Line)
    requires !HasKey(p)
    ensures AddLine(s, p) == s
  {
  }

  /** A product whose key is already in the cart never adds a line: every
      line with that key gains `product.quantity || 1`, every other line is
      kept, in order. */
  lemma AddMergesExisting(s: seq<Line>, p: Line)
    requires HasKey(p) && HasLineWithKey(s, Key(p))
    ensures |AddLine(s, p)| == |s|
    ensures forall i :: 0 <= i < |s| && Key(s[i]) == Key(p) ==>
      AddLine(s, p)[i] == s[i].(quantity := QtyOr1(s[i].quantity) + QtyOr1(p.quantity))
    ensures Without(AddLine(s, p), Key(p)) == Without(s, Key(p))
  {
    QuantityMapKeepsOthers(s, AddLine(s, p), Key(p));
  }

  /** A product whose key is new is appended at the end, its `id` set to the
      resolved key so that the line's own key is the key it was added under. */
  lemma AddAppendsNew(s: seq<Line>, p: Line)
    requires HasKey(p) && !HasLineWithKey(s, Key(p))
    ensures |AddLine(s, p)| == |s| + 1 && AddLine(s, p)[..|s|] == s
    ensures Key(AddLine(s, p)[|s|]) == Key(p) && AddLine(s, p)[|s|].id == Key(p)
    ensures AddLine(s, p)[|s|].quantity == QtyOr1(p.quantity)
  {
    assert (s + [NewLine(p)])[..|s|] == s;
  }

  /** Adding the same product key twice, with quantities q1 and q2, yields a
      single line of quantity (q1 || 1) + (q2 || 1). */
  lemma {:induction false} AddTwiceMerges(s: seq<Line>, p1: Line, p2: Line)
    requires HasKey(p1) && Key(p2) == Key(p1) && !HasLineWithKey(s, Key(p1))
    ensures AddLine(AddLine(s, p1), p2)
         == s + [NewLine(p1).(quantity := QtyOr1(p1.quantity) + QtyOr1(p2.quantity))]
  {
    var x, q2 := NewLine(p1), QtyOr1(p2.quantity);
    var once := AddLine(s, p1);
    var y := x.(quantity := QtyOr1(p1.quantity) + q2);
    assert once == s + [x] by {
      AddNewAppends(s, p1);
    }
    assert AddLine(once, p2) == Bump(once, Key(p2), q2) by {
      NewLineKey(p1);
      HasLastKey(s, x);
      AddExistingBumps(once, p2);
    }
    assert Bump(once, Key(p2), q2) == s + [y] by {
      NewLineKey(p1);
      BumpLast(s, x, q2);
    }
  }

  /** A new line keeps the product's key, and its quantity is the
      product's with 0 read as 1. */
  lemma NewLineKey(p: Line)
    requires HasKey(p)
    ensures Key(NewLine(p)) == Key(p) && QtyOr1(NewLine(p).quantity) == QtyOr1(p.quantity)
  {
  }

  lemma AddNewAppends(s: seq<Line>, p: Line)
    requires HasKey(p) && !HasLineWithKey(s, Key(p))
    ensures AddLine(s, p) == s + [NewLine(p)]
  {
  }

  lemma AddExistingBumps(s: seq<Line>, p: Line)
    requires HasKey(p) && HasLineWithKey(s, Key(p))
    ensures AddLine(s, p) == Bump(s, Key(p), QtyOr1(p.quantity))
  {
  }

  lemma HasLastKey(s: seq<Line>, x: Line)
    ensures HasLineWithKey(s + [x], Key(x))
  {
    assert (s + [x])[|s|] == x;
  }

  /** Bumping the key of a last line that no earlier line shares. */
  lemma BumpLast(s: seq<Line>, x: Line, d: int)
    requires !HasLineWithKey(s, Key(x))
    ensures Bump(s + [x], Key(x), d) == s + [x.(quantity := QtyOr1(x.quantity) + d)]
  {
    var once := s + [x];
    var r, t := Bump(once, Key(x), d), s + [x.(quantity := QtyOr1(x.quantity) + d)];
    forall i | 0 <= i < |once| ensures r[i] == t[i] {
      if i < |s| {
        assert once[i] == s[i] && t[i] == s[i];
      }
    }
  }

  /** `increaseQuantity(k)` adds one to every line with key k, keeps each
      line's key, and leaves every other line and their order alone. */
  lemma IncreaseOnlyTarget(s: seq<Line>, k: Value)
    ensures |IncrementLine(s, k)| == |s|
    ensures forall i :: 0 <= i < |s| ==> Key(IncrementLine(s, k)[i]) == Key(s[i])
    ensures forall i :: 0 <= i < |s| && Key(s[i]) == k ==>
      IncrementLine(s, k)[i].quantity == QtyOr1(s[i].quantity) + 1
    ensures Without(IncrementLine(s, k), k) == Without(s, k)
  {
    QuantityMapKeepsOthers(s, IncrementLine(s, k), k);
  }

  /** `decreaseQuantity(k)` on a cart whose line x is the only one with key
      k: x loses one unit, and is dropped when that leaves nothing; the lines
      before and after it are kept as they are. */
  lemma DecreaseAt(a: seq<Line>, x: Line, b: seq<Line>)
    requires !HasLineWithKey(a, Key(x)) && !HasLineWithKey(b, Key(x))
    ensures Decrement(a + [x] + b, Key(x))
         == a + (if QtyOr1(x.quantity) > 1 then [x.(quantity := QtyOr1(x.quantity) - 1)] else []) + b
  {
    DecrementAppend(a + [x], b, Key(x));
    DecrementAppend(a, [x], Key(x));
    DecrementNoMatch(a, Key(x));
    DecrementNoMatch(b, Key(x));
  }

  /** In particular a line at quantity 1 disappears, and lines of other keys
      are never touched. */
  lemma {:induction false} DecreaseFromOneRemoves(s: seq<Line>, k: Value)
    requires KeysDistinct(s) && HasLineWithKey(s, k)
    ensures Without(Decrement(s, k), k) == Without(s, k)
    ensures forall i :: 0 <= i < |s| && Key(s[i]) == k && s[i].quantity == 1 ==>
      Decrement(s, k) == s[..i] + s[i + 1..]
  {
    DecrementKeepsOthers(s, k);
    forall i | 0 <= i < |s| && Key(s[i]) == k && s[i].quantity == 1
      ensures Decrement(s, k) == s[..i] + s[i + 1..]
    {
      DecreaseOnlyLine(s, i);
    }
  }

  lemma {:induction false} DecreaseOnlyLine(s: seq<Line>, i: int)
    requires KeysDistinct(s) && 0 <= i < |s| && s[i].quantity == 1
    ensures Decrement(s, Key(s[i])) == s[..i] + s[i + 1..]
    decreases |s|
  {
    var k, t := Key(s[i]), s[1..];
    assert DecrementHead(s[0], k) == (if i == 0 then [] else [s[0]]);
    assert Decrement(s, k) == DecrementHead(s[0], k) + Decrement(t, k);
    if i == 0 {
      OnlyLineWithKey(s, 0);
      DecrementNoMatch(t, k);
      assert [] + t == s[..0] + s[1..];
    } else {
      assert KeysDistinct(t) by {
        forall p, q | 0 <= p < q < |t| ensures Key(t[p]) != Key(t[q]) {
          assert t[p] == s[p + 1] && t[q] == s[q + 1];
        }
      }
      assert t[i - 1] == s[i];
      DecreaseOnlyLine(t, i - 1);
      assert [s[0]] + (t[..i - 1] + t[i..]) == s[..i] + s[i + 1..];
    }
  }

  /** In a cart with distinct keys, no line but the i-th has its key. */
  lemma OnlyLineWithKey(s: seq<Line>, i: int)
    requires KeysDistinct(s) && 0 <= i < |s|
    ensures s == s[..i] + [s[i]] + s[i + 1..]
    ensures !HasLineWithKey(s[..i], Key(s[i])) && !HasLineWithKey(s[i + 1..], Key(s[i]))
  {
    var a, b := s[..i], s[i + 1..];
    assert s == a + [s[i]] + b;
    forall j | 0 <= j < |a| ensures Key(a[j]) != Key(s[i]) {
      assert a[j] == s[j];
    }
    forall j | 0 <= j < |b| ensures Key(b[j]) != Key(s[i]) {
      assert b[j] == s[i + 1 + j];
    }
  }

  /** `updateQuantity(k, q)` ignores q < 1; otherwise every line with key k
      gets exactly quantity q and nothing else changes. */
  lemma UpdateSetsExactly(s: seq<Line>, k: Value, q: int)
    ensures q < 1 ==> UpdateLine(s, k, q) == s
    ensures q >= 1 ==> |UpdateLine(s, k, q)| == |s|
    ensures q >= 1 ==> forall i :: 0 <= i < |s| && Key(s[i]) == k ==>
      UpdateLine(s, k, q)[i] == s[i].(quantity := q)
    ensures Without(UpdateLine(s, k, q), k) == Without(s, k)
  {
    if q >= 1 {
      QuantityMapKeepsOthers(s, SetMatching(s, k, q), k);
    }
  }

  /** `removeFromCart(k)` deletes every line with key k and keeps all others
      in their order. */
  lemma {:induction false} RemoveDeletesKey(s: seq<Line>, k: Value)
    ensures !HasLineWithKey(RemoveLine(s, k), k)
    ensures Subsequence(RemoveLine(s, k), s)
    ensures forall i :: 0 <= i < |s| && Key(s[i]) != k ==> s[i] in RemoveLine(s, k)
    decreases |s|
  {
    WithoutKeys(s, k, k);
    if s != [] {
      RemoveDeletesKey(s[1..], k);
      var rest := Without(s[1..], k);
      assert [s[0]] + s[1..] == s;
      if Key(s[0]) != k {
        SubsequenceNonEmpty(s[0], rest, s[1..]);
      } else {
        SubsequenceWeaken(rest, s[1..], s[0]);
      }
      forall i | 0 <= i < |s| && Key(s[i]) != k ensures s[i] in RemoveLine(s, k) {
        if i > 0 {
          assert s[1..][i - 1] == s[i];
        }
      }
    }
  }

  lemma SubsequenceNonEmpty(x: Line, a: seq<Line>, b: seq<Line>)
    requires Subsequence(a, b)
    ensures Subsequence([x] + a, [x] + b)
  {
    assert ([x] + a)[1..] == a && ([x] + b)[1..] == b;
  }

  /** The badge count is at least the number of lines when no quantity is
      negative. */
  lemma {:induction false} CountAtLeastLines(s: seq<Line>)
    requires forall i :: 0 <= i < |s| ==> s[i].quantity >= 0
    ensures Count(s) >= |s|
    decreases |s|
  {
    if s != [] {
      CountAtLeastLines(s[1..]);
    }
  }

  /** On a well-formed cart, adding a keyed product raises the badge count by
      exactly the quantity added. */
  lemma CountAfterAdd(s: seq<Line>, p: Line)
    requires WellFormed(s) && HasKey(p) && p.quantity >= 0
    ensures Count(AddLine(s, p)) == Count(s) + QtyOr1(p.quantity)
  {
    var k, d := Key(p), QtyOr1(p.quantity);
    if HasLineWithKey(s, k) {
      var i := SplitAtKey(s, k);
      assert s[i].quantity >= 1;
      CountBumpAt(s[..i], s[i], s[i + 1..], d);
    } else {
      CountAppend(s, [NewLine(p)]);
    }
  }

  lemma CountBumpAt(a: seq<Line>, x: Line, b: seq<Line>, d: int)
    requires !HasLineWithKey(a, Key(x)) && !HasLineWithKey(b, Key(x))
    requires x.quantity >= 1 && d >= 1
    ensures Count(Bump(a + [x] + b, Key(x), d)) == Count(a + [x] + b) + d
  {
    var k := Key(x);
    BumpAppend(a + [x], b, k, d);
    BumpAppend(a, [x], k, d);
    BumpNoMatch(a, k, d);
    BumpNoMatch(b, k, d);
    var x' := x.(quantity := x.quantity + d);
    assert Bump([x], k, d) == [x'];
    CountAppend(a + [x], b);
    CountAppend(a, [x]);
    CountAppend(a + [x'], b);
    CountAppend(a, [x']);
  }

  /** Every operation keeps the cart well formed (keyed lines, distinct
      keys, positive quantities), provided an added product does not carry a
      negative quantity. */
  lemma ApplyPreservesWellFormed(s: seq<Line>, op: CartOp)
    requires WellFormed(s)
    requires op.Add? ==> op.product.quantity >= 0
    ensures WellFormed(Apply(s, op))
  {
    match op
    case Add(p) =>
      if HasKey(p) {
        if HasLineWithKey(s, Key(p)) {
          SameKeysDistinct(s, Bump(s, Key(p), QtyOr1(p.quantity)));
        } else {
          var r := s + [NewLine(p)];
          forall i, j | 0 <= i < j < |r| ensures Key(r[i]) != Key(r[j]) {
            if j == |s| {
              assert r[i] == s[i];
            }
          }
        }
      }
    case Update(k, q) =>
      if q >= 1 {
        SameKeysDistinct(s, SetMatching(s, k, q));
      }
    case Increase(k) =>
      SameKeysDistinct(s, Bump(s, k, 1));
    case Decrease(k) =>
      DecrementWellFormed(s, k);
    case Remove(k) =>
      WithoutWellFormed(s, k);
    case Clear =>
  }

  // ---------------------------------------------------------------------
  // Loading and saving

  /** What `JSON.parse` of the stored text gives: an array of records, or
      anything else (a parse error, a non-array), which the provider turns
      into an empty cart. */
  datatype StoredCart = CartJson(lines: seq<Line>) | NotCartJson

  function CartKey(userId: string): string
  {
    "cart_" + userId
  }

  function Lookup(store: map<string, StoredCart>, key: string): Option<StoredCart>
  {
    if key in store then Some(store[key]) else None
  }

  /** The items the load effect sets from the (possibly missing) stored entry. */
  function LoadedCart(saved: Option<StoredCart>): seq<Line>
  {
    match saved
    case None => []
    case Some(NotCartJson) => []
    case Some(CartJson(lines)) => KeepKeyed(lines)
  }

  /** Loading keeps exactly the stored entries that have some key, in order. */
  lemma {:induction false} LoadKeepsKeyed(lines: seq<Line>)
    ensures AllKeyed(LoadedCart(Some(CartJson(lines))))
    ensures Subsequence(LoadedCart(Some(CartJson(lines))), lines)
    ensures forall i :: 0 <= i < |lines| && HasKey(lines[i]) ==>
      lines[i] in LoadedCart(Some(CartJson(lines)))
    decreases |lines|
  {
    if lines != [] {
      LoadKeepsKeyed(lines[1..]);
      var rest := KeepKeyed(lines[1..]);
      assert [lines[0]] + lines[1..] == lines;
      if HasKey(lines[0]) {
        SubsequenceNonEmpty(lines[0], rest, lines[1..]);
      } else {
        SubsequenceWeaken(rest, lines[1..], lines[0]);
      }
      forall i | 0 <= i < |lines| && HasKey(lines[i])
        ensures lines[i] in LoadedCart(Some(CartJson(lines)))
      {
        if i > 0 {
          assert lines[1..][i - 1] == lines[i];
        }
      }
    }
  }

  /** A parse failure or a missing entry loads an empty cart. */
  lemma LoadMalformedIsEmpty()
    ensures LoadedCart(Some(NotCartJson)) == [] && LoadedCart(None) == []
  {
  }

  /** What the provider saves, it loads back unchanged: the cart only ever
      holds keyed lines. */
  lemma {:induction false} ReloadAfterSave(items: seq<Line>)
    requires AllKeyed(items)
    ensures LoadedCart(Some(CartJson(items))) == items
    decreases |items|
  {
    if items != [] {
      ReloadAfterSave(items[1..]);
    }
  }

  /** Different users never share a storage key. */
  lemma CartKeyInjective(a: string, b: string)
    requires a != b
    ensures CartKey(a) != CartKey(b)
  {
    assert CartKey(a)[5..] == a && CartKey(b)[5..] == b;
  }

  // ---------------------------------------------------------------------
  // The provider

  /** `CartProvider`: the `cartItems` state, the `hasLoadedCart` ref and the
      cart entries of `localStorage`. The two effects are methods that run
      with the `userId` prop of the render; state updates take effect at
      once. */
  class CartProvider {
    var items: seq<Line>
    var loaded: bool
    var store: map<string, StoredCart>
    ghost const initialStore: map<string, StoredCart>

    /** Every line carries a key, and nothing has been written before the
        load ran. */
    ghost predicate Valid()
      reads this
    {
      AllKeyed(items) && (!loaded ==> store == initialStore)
    }

    constructor (storage: map<string, StoredCart>)
      ensures Valid() && items == [] && !loaded
      ensures store == storage && initialStore == storage
    {
      items := [];
      loaded := false;
      store := storage;
      initialStore := storage;
    }

    /** The load effect: only with a userId and only once per provider. */
    method LoadEffect(userId: Option<string>)
      requires Valid()
      modifies this
      ensures Valid() && store == old(store)
      ensures loaded == (old(loaded) || Present(userId))
      ensures items == if Present(userId) && !old(loaded)
                       then LoadedCart(Lookup(store, CartKey(userId.value)))
                       else old(items)
    {
      if !Present(userId) || loaded {
        return;
      }
      var saved := Lookup(store, CartKey(userId.value));
      items := LoadedCart(saved);
      if saved.Some? && saved.value.CartJson? {
        LoadKeepsKeyed(saved.value.lines);
      }
      loaded := true;
    }

    /** The save effect: writes the current items under the CURRENT user's
        key once the load has run; a failing write (a full storage) is
        dropped and the items stay in memory. */
    method SaveEffect(userId: Option<string>, writeFails: bool)
      requires Valid()
      modifies this
      ensures Valid() && items == old(items) && loaded == old(loaded)
      ensures store == if Present(userId) && loaded && !writeFails
                       then old(store)[CartKey(userId.value) := CartJson(items)]
                       else old(store)
    {
      if !Present(userId) || !loaded {
        return;
      }
      if !writeFails {
        store := store[CartKey(userId.value) := CartJson(items)];
      }
    }

    method AddToCart(product: Line)
      requires Valid()
      modifies this
      ensures Valid() && items == AddLine(old(items), product)
      ensures store == old(store) && loaded == old(loaded)
    {
      ghost var before := items;
      items := AddLine(items, product);
      assert AllKeyed(items) by {
        if HasKey(product) && HasLineWithKey(before, Key(product)) {
          assert forall i :: 0 <= i < |items| ==> Key(items[i]) == Key(before[i]);
        }
      }
    }

    method UpdateQuantity(productId: Value, newQuantity: int)
      requires Valid()
      modifies this
      ensures Valid() && items == UpdateLine(old(items), productId, newQuantity)
      ensures store == old(store) && loaded == old(loaded)
    {
      ghost var before := items;
      items := UpdateLine(items, productId, newQuantity);
      assert forall i :: 0 <= i < |items| ==> Key(items[i]) == Key(before[i]);
    }

    method IncreaseQuantity(productId: Value)
      requires Valid()
      modifies this
      ensures Valid() && items == IncrementLine(old(items), productId)
      ensures store == old(store) && loaded == old(loaded)
    {
      ghost var before := items;
      items := IncrementLine(items, productId);
      assert forall i :: 0 <= i < |items| ==> Key(items[i]) == Key(before[i]);
    }

    method DecreaseQuantity(productId: Value)
      requires Valid()
      modifies this
      ensures Valid() && items == Decrement(old(items), productId)
      ensures store == old(store) && loaded == old(loaded)
    {
      ghost var before := items;
      items := Decrement(items, productId);
      forall v | HasLineWithKey(items, v) ensures HasLineWithKey(before, v) {
        DecrementKeys(before, productId, v);
      }
      forall i | 0 <= i < |items| ensures HasKey(items[i]) {
        assert HasLineWithKey(items, Key(items[i]));
        var j :| 0 <= j < |before| && Key(before[j]) == Key(items[i]);
      }
    }

    method RemoveFromCart(productId: Value)
      requires Valid()
      modifies this
      ensures Valid() && items == RemoveLine(old(items), productId)
      ensures store == old(store) && loaded == old(loaded)
    {
      ghost var before := items;
      items := RemoveLine(items, productId);
      forall i | 0 <= i < |items| ensures HasKey(items[i]) {
        WithoutKeys(before, productId, Key(items[i]));
        assert HasLineWithKey(items, Key(items[i]));
        var j :| 0 <= j < |before| && Key(before[j]) == Key(items[i]);
      }
    }

    method ClearCart()
      requires Valid()
      modifies this
      ensures Valid() && items == []
      ensures store == old(store) && loaded == old(loaded)
    {
      items := [];
    }

    /** `cartCount`. */
    function CartCount(): (n: int)
      reads this
      ensures n == Count(items)
      ensures AllPositive(items) ==> n >= |items|
    {
      assert AllPositive(items) ==> Count(items) >= |items| by {
        if AllPositive(items) {
          CountAtLeastLines(items);
        }
      }
      Count(items)
    }
  }

  /** As written, the "has loaded" ref is never reset. While user A is
      signed in, the set-password page (its route has no sign-in guard)
      logs user B in and navigates on without a reload; the user id then
      goes from A straight to B in the same provider, B's load is skipped
      and the next save writes A's lines over B's stored cart. */
  method UserSwitchLeaksCart(a: string, b: string, x: Line, bLines: seq<Line>)
    returns (savedForB: Option<StoredCart>)
    requires a != "" && b != "" && a != b && HasKey(x)
    ensures savedForB == Some(CartJson([NewLine(x)]))
  {
    var cart := new CartProvider(map[CartKey(b) := CartJson(bLines)]);
    CartKeyInjective(a, b);
    cart.LoadEffect(Some(a));
    cart.SaveEffect(Some(a), false);
    assert cart.items == [];
    cart.AddToCart(x);
    assert cart.items == [NewLine(x)];
    cart.SaveEffect(Some(a), false);
    // B signs in on the set-password page: the user id changes to b
    cart.LoadEffect(Some(b));
    cart.SaveEffect(Some(b), false);
    savedForB := Lookup(cart.store, CartKey(b));
  }

  /** The intended protocol: the cart remembers WHICH user it was loaded for,
      reloads when that changes, and saves only under the user it holds. */
  class ScopedCartProvider {
    var items: seq<Line>
    var loadedFor: Option<string>
    var store: map<string, StoredCart>

    ghost predicate Valid()
      reads this
    {
      AllKeyed(items) && (loadedFor.Some? ==> loadedFor.value != "")
    }

    constructor (storage: map<string, StoredCart>)
      ensures Valid() && items == [] && loadedFor == None && store == storage
    {
      items := [];
      loadedFor := None;
      store := storage;
    }

    method LoadEffect(userId: Option<string>)
      requires Valid()
      modifies this
      ensures Valid() && store == old(store)
      ensures if Present(userId) && old(loadedFor) != userId
              then items == LoadedCart(Lookup(store, CartKey(userId.value))) && loadedFor == userId
              else items == old(items) && loadedFor == old(loadedFor)
    {
      if !Present(userId) || loadedFor == userId {
        return;
      }
      var saved := Lookup(store, CartKey(userId.value));
      items := LoadedCart(saved);
      if saved.Some? && saved.value.CartJson? {
        LoadKeepsKeyed(saved.value.lines);
      }
      loadedFor := userId;
    }

    method SaveEffect(userId: Option<string>, writeFails: bool)
      requires Valid()
      modifies this
      ensures Valid() && items == old(items) && loadedFor == old(loadedFor)
      ensures store == if Present(userId) && loadedFor == userId && !writeFails
                       then old(store)[CartKey(userId.value) := CartJson(items)]
                       else old(store)
    {
      if !Present(userId) || loadedFor != userId {
        return;
      }
      if !writeFails {
        store := store[CartKey(userId.value) := CartJson(items)];
      }
    }

    method Perform(op: CartOp)
      requires Valid()
      requires op.Add? ==> op.product.quantity >= 0
      modifies this
      ensures Valid() && items == Apply(old(items), op)
      ensures store == old(store) && loadedFor == old(loadedFor)
    {
      ghost var before := items;
      items := Apply(items, op);
      assert AllKeyed(items) by {
        KeyedApply(before, op);
      }
    }
  }

  /** Every operation keeps every line keyed (the part of well-formedness
      that holds whatever storage held). */
  lemma KeyedApply(s: seq<Line>, op: CartOp)
    requires AllKeyed(s)
    ensures AllKeyed(Apply(s, op))
  {
    var r := Apply(s, op);
    match op
    case Add(p) =>
    case Update(k, q) =>
    case Increase(k) =>
    case Decrease(k) =>
      forall i | 0 <= i < |r| ensures HasKey(r[i]) {
        DecrementKeys(s, k, Key(r[i]));
        assert HasLineWithKey(r, Key(r[i]));
        var j :| 0 <= j < |s| && Key(s[j]) == Key(r[i]);
      }
    case Remove(k) =>
      forall i | 0 <= i < |r| ensures HasKey(r[i]) {
        WithoutKeys(s, k, Key(r[i]));
        assert HasLineWithKey(r, Key(r[i]));
        var j :| 0 <= j < |s| && Key(s[j]) == Key(r[i]);
      }
    case Clear =>
  }

  /** With the per-user protocol, the same session keeps both carts apart:
      B's stored cart survives and A's lines stay under A's key. */
  method UserSwitchKeepsCartsApart(a: string, b: string, x: Line, bLines: seq<Line>)
    returns (savedForA: Option<StoredCart>, savedForB: Option<StoredCart>)
    requires a != "" && b != "" && a != b && HasKey(x) && x.quantity >= 0
    ensures savedForA == Some(CartJson([NewLine(x)]))
    ensures savedForB == Some(CartJson(KeepKeyed(bLines)))
  {
    var cart := new ScopedCartProvider(map[CartKey(b) := CartJson(bLines)]);
    CartKeyInjective(a, b);
    cart.LoadEffect(Some(a));
    cart.SaveEffect(Some(a), false);
    assert cart.items == [];
    cart.Perform(Add(x));
    assert cart.items == [NewLine(x)];
    cart.SaveEffect(Some(a), false);
    cart.LoadEffect(Some(b));
    cart.SaveEffect(Some(b), false);
    savedForA := Lookup(cart.store, CartKey(a));
    savedForB := Lookup(cart.store, CartKey(b));
  }
}
