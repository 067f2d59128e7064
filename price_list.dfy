/**
 * The catalogue page (src/page/PriceList.jsx): per-row quantity pickers,
 * "add to cart" with a per-row lock, and the paged product list merged
 * by product id with a "has more" flag.
 *
 * `parseInt` is a parameter: the handlers receive its result, None
 * standing for NaN.
 */
module PriceList {
  import opened Js
  import opened Cart

  // ---------------------------------------------------------------------
  // Quantities

  /** `Math.max(1, parseInt(value) || 1)`. */
  function ClampQty(parsed: Option<int>): (r: int)
    ensures r >= 1
    ensures parsed.Some? && parsed.value >= 1 ==> r == parsed.value
    ensures parsed.None? || parsed.value < 1 ==> r == 1
  {
    var q := if parsed.None? || parsed.value == 0 then 1 else parsed.value;
    if 1 > q then 1 else q
  }

  /** `quantities[id] || 1`; the map is a plain object, so the id stands
      for its string form. */
  function PickedQty(quantities: map<string, int>, id: Value): int
  {
    var k := ToStr(id);
    if k in quantities && quantities[k] != 0 then quantities[k] else 1
  }

  // ---------------------------------------------------------------------
  // Merging a page into the list

  /** The ids of a list. */
  function Ids(s: seq<Line>): set<Value>
  {
    set i | 0 <= i < |s| :: s[i].id
  }

  ghost predicate IdsDistinct(s: seq<Line>)
  {
    forall i, j :: 0 <= i < j < |s| ==> s[i].id != s[j].id
  }

  /** The position of the entry with id k in a list with distinct ids. */
  function FirstIndex(s: seq<Line>, k: Value): (r: int)
    ensures -1 <= r < |s|
    ensures r >= 0 ==> s[r].id == k && forall j :: 0 <= j < r ==> s[j].id != k
    ensures r == -1 ==> forall j :: 0 <= j < |s| ==> s[j].id != k
  {
    if s == [] then -1
    else if s[0].id == k then 0
    else var r := FirstIndex(s[1..], k); if r == -1 then -1 else r + 1
  }

  /** `map.set(p.id, p)`: a known id keeps its place and takes the new
      record; a new id goes to the end. */
  function Insert(acc: seq<Line>, p: Line): seq<Line>
  {
    var i := FirstIndex(acc, p.id);
    if i >= 0 then acc[i := p] else acc + [p]
  }

  /** `Array.from(new Map(combined.map(p => [p.id, p])).values())`. */
  function Dedup(s: seq<Line>): seq<Line>
  {
    if s == [] then [] else Insert(Dedup(s[..|s| - 1]), s[|s| - 1])
  }

  /** x is the last record of s carrying x's id. */
  ghost predicate IsLast(s: seq<Line>, x: Line)
  {
    exists j :: 0 <= j < |s| && s[j] == x && forall k :: j < k < |s| ==> s[k].id != x.id
  }

  ghost predicate AllLast(r: seq<Line>, s: seq<Line>)
  {
    forall i :: 0 <= i < |r| ==> IsLast(s, r[i])
  }

  ghost predicate FirstAppearanceOrder(r: seq<Line>, s: seq<Line>)
  {
    forall i1, i2 :: 0 <= i1 < i2 < |r| ==> FirstIndex(s, r[i1].id) < FirstIndex(s, r[i2].id)
  }

  /** The merged list: one entry per id of the input, ids distinct, each
      entry the LAST record carrying its id, entries in the order in which
      their ids first appear. */
  ghost predicate MergedFrom(r: seq<Line>, s: seq<Line>)
  {
    IdsDistinct(r) && Ids(r) == Ids(s) && AllLast(r, s) && FirstAppearanceOrder(r, s)
  }

  lemma FirstIndexExtend(s: seq<Line>, p: Line, k: Value)
    requires k in Ids(s)
    ensures FirstIndex(s + [p], k) == FirstIndex(s, k)
  {
    var i :| 0 <= i < |s| && s[i].id == k;
    var a := FirstIndex(s, k);
    assert (s + [p])[i] == s[i];
    assert (s + [p])[a] == s[a];
    assert forall j :: 0 <= j < a ==> (s + [p])[j] == s[j];
  }

  lemma IdsAppend(s: seq<Line>, p: Line)
    ensures Ids(s + [p]) == Ids(s) + {p.id}
  {
    var s' := s + [p];
    assert s'[|s|] == p;
    forall x | x in Ids(s') ensures x in Ids(s) + {p.id} {
      var j :| 0 <= j < |s'| && s'[j].id == x;
      if j < |s| { assert s[j] == s'[j]; }
    }
    forall x | x in Ids(s) ensures x in Ids(s') {
      var j :| 0 <= j < |s| && s[j].id == x;
      assert s'[j].id == x;
    }
  }

  lemma IdsReplace(r: seq<Line>, i: int, p: Line)
    requires 0 <= i < |r| && r[i].id == p.id
    ensures Ids(r[i := p]) == Ids(r)
  {
    var r' := r[i := p];
    forall x | x in Ids(r') ensures x in Ids(r) {
      var j :| 0 <= j < |r'| && r'[j].id == x;
      assert r[j].id == x;
    }
    forall x | x in Ids(r) ensures x in Ids(r') {
      var j :| 0 <= j < |r| && r[j].id == x;
      assert r'[j].id == x;
    }
  }

  lemma InsertKeepsIds(r: seq<Line>, s: seq<Line>, p: Line)
    requires IdsDistinct(r) && Ids(r) == Ids(s)
    ensures IdsDistinct(Insert(r, p)) && Ids(Insert(r, p)) == Ids(s + [p])
  {
    var i := FirstIndex(r, p.id);
    IdsAppend(s, p);
    if i >= 0 {
      IdsReplace(r, i, p);
    } else {
      IdsAppend(r, p);
      assert p.id !in Ids(r);
      var r' := r + [p];
      forall a, b | 0 <= a < b < |r'| ensures r'[a].id != r'[b].id {
        assert r'[a] == r[a];
        if b < |r| { assert r'[b] == r[b]; } else { assert r[a].id in Ids(r); }
      }
    }
  }

  lemma IsLastExtend(s: seq<Line>, x: Line, p: Line)
    requires IsLast(s, x) && p.id != x.id
    ensures IsLast(s + [p], x)
  {
    var s' := s + [p];
    var j :| 0 <= j < |s| && s[j] == x && forall k :: j < k < |s| ==> s[k].id != x.id;
    assert s'[j] == x;
    assert forall k :: j < k < |s'| ==> s'[k].id != x.id by {
      forall k | j < k < |s'| ensures s'[k].id != x.id {
        if k < |s| { assert s'[k] == s[k]; }
      }
    }
  }

  lemma InsertKeepsLast(r: seq<Line>, s: seq<Line>, p: Line)
    requires AllLast(r, s) && IdsDistinct(r)
    ensures AllLast(Insert(r, p), s + [p])
  {
    var s' := s + [p];
    var r' := Insert(r, p);
    var i := FirstIndex(r, p.id);
    assert IsLast(s', p) by {
      assert s'[|s|] == p;
    }
    forall a | 0 <= a < |r'| ensures IsLast(s', r'[a]) {
      if (i >= 0 && a == i) || (i < 0 && a == |r|) {
        assert r'[a] == p;
      } else {
        assert r'[a] == r[a];
        assert r[a].id != p.id;
        IsLastExtend(s, r[a], p);
      }
    }
  }

  lemma InsertKeepsOrder(r: seq<Line>, s: seq<Line>, p: Line)
    requires FirstAppearanceOrder(r, s) && Ids(r) == Ids(s)
    ensures FirstAppearanceOrder(Insert(r, p), s + [p])
  {
    var s' := s + [p];
    var r' := Insert(r, p);
    var i := FirstIndex(r, p.id);
    forall x | x in Ids(s) ensures FirstIndex(s', x) == FirstIndex(s, x) {
      FirstIndexExtend(s, p, x);
    }
    forall a | 0 <= a < |r| ensures r[a].id in Ids(s) {
      assert r[a].id in Ids(r);
    }
    if i < 0 {
      assert p.id !in Ids(s);
      assert FirstIndex(s', p.id) == |s| by {
        assert s'[|s|].id == p.id;
        assert forall j :: 0 <= j < |s| ==> s'[j] == s[j];
      }
    }
    forall i1, i2 | 0 <= i1 < i2 < |r'|
      ensures FirstIndex(s', r'[i1].id) < FirstIndex(s', r'[i2].id)
    {
      assert r'[i1].id == r[i1].id;
      if i2 < |r| {
        assert r'[i2].id == r[i2].id;
      }
    }
  }

  lemma InsertKeepsMerged(r: seq<Line>, s: seq<Line>, p: Line)
    requires MergedFrom(r, s)
    ensures MergedFrom(Insert(r, p), s + [p])
  {
    InsertKeepsIds(r, s, p);
    InsertKeepsLast(r, s, p);
    InsertKeepsOrder(r, s, p);
  }

  /** The merge keeps one entry per id, the last record for it, in
      first-appearance order. */
  lemma {:induction false} DedupMerges(s: seq<Line>)
    ensures MergedFrom(Dedup(s), s)
    decreases |s|
  {
    if s == [] {
      assert Ids(s) == {};
      assert Ids(Dedup(s)) == {};
    } else {
      var init := s[..|s| - 1];
      DedupMerges(init);
      InsertKeepsMerged(Dedup(init), init, s[|s| - 1]);
      assert init + [s[|s| - 1]] == s;
    }
  }

  /** A list whose ids are already distinct comes out unchanged, so the
      first page's distinct products are shown as sent. */
  lemma {:induction false} DedupDistinct(s: seq<Line>)
    requires IdsDistinct(s)
    ensures Dedup(s) == s
    decreases |s|
  {
    if s != [] {
      var init, p := s[..|s| - 1], s[|s| - 1];
      assert IdsDistinct(init);
      DedupDistinct(init);
      assert FirstIndex(init, p.id) == -1 by {
        forall j | 0 <= j < |init| ensures init[j].id != p.id {
          assert init[j] == s[j];
        }
      }
      assert init + [p] == s;
    }
  }

  // ---------------------------------------------------------------------
  // The "has more" flag

  /** A page number of `payload.meta`: absent (undefined), `null`, or a
      number. */
  datatype PageNumber = Undefined | Null | Page(n: int)

  /** What `>=` compares a page number as: undefined is NaN (None), null
      is 0. */
  function AsNumber(p: PageNumber): (r: Option<int>)
    ensures r.None? <==> p.Undefined?
    ensures p.Null? ==> r == Some(0)
    ensures p.Page? ==> r == Some(p.n)
  {
    match p
    case Undefined => None
    case Null => Some(0)
    case Page(n) => Some(n)
  }

  /** `payload.meta`, with `current_page` and `last_page`. */
  datatype Meta = Meta(currentPage: PageNumber, lastPage: PageNumber)

  /** The products request: a response with `payload.data` (empty when
      falsy) and `payload.meta`, or a failure. */
  datatype ProductsResponse = Ok(data: seq<Line>, meta: Option<Meta>) | Failed

  /** After a response: no more pages exactly when the meta says the
      current page is at or past the last, with `>=` on JavaScript numbers.
      A comparison with NaN is false, so an absent page number keeps "more"
      on; `null` compares as 0. */
  function HasMoreAfter(meta: Option<Meta>): (r: bool)
  {
    match meta
    case None => true
    case Some(m) =>
      var c, l := AsNumber(m.currentPage), AsNumber(m.lastPage);
      !(c.Some? && l.Some? && c.value >= l.value)
  }

  /** Each shape of meta: with none, or an absent page number, "more" stays
      on; two numbers turn it off iff the current page is at or past the
      last; a `null` last page turns it off from any page that is not
      negative, and a `null` current page from a last page that is not
      positive. */
  lemma HasMoreCases(meta: Option<Meta>)
    ensures meta.None? ==> HasMoreAfter(meta)
    ensures meta.Some? && (meta.value.currentPage.Undefined? || meta.value.lastPage.Undefined?)
            ==> HasMoreAfter(meta)
    ensures meta.Some? && meta.value.currentPage.Page? && meta.value.lastPage.Page? ==>
            (!HasMoreAfter(meta) <==> meta.value.currentPage.n >= meta.value.lastPage.n)
    ensures meta.Some? && meta.value.lastPage.Null? && meta.value.currentPage.Page? ==>
            (!HasMoreAfter(meta) <==> meta.value.currentPage.n >= 0)
    ensures meta.Some? && meta.value.currentPage.Null? && meta.value.lastPage.Page? ==>
            (!HasMoreAfter(meta) <==> meta.value.lastPage.n <= 0)
  {
  }

  /** Once a page is at or past the last, every later page is too. */
  lemma NoMoreStaysOff(c: int, c2: int, last: PageNumber)
    requires c <= c2
    ensures !HasMoreAfter(Some(Meta(Page(c), last))) ==> !HasMoreAfter(Some(Meta(Page(c2), last)))
  {
  }

  // ---------------------------------------------------------------------
  // Page state

  class PriceListPage {
    var products: seq<Line>
    var page: int
    var hasMore: bool
    var quantities: map<string, int>
    var addedItems: set<string>
    var loading: bool

    /** Every stored pick is at least 1 and the product ids are distinct. */
    ghost predicate Valid()
      reads this
    {
      (forall k :: k in quantities ==> quantities[k] >= 1) && IdsDistinct(products)
    }

    constructor ()
      ensures Valid() && products == [] && page == 1 && hasMore
      ensures quantities == map[] && addedItems == {} && !loading
    {
      products := [];
      page := 1;
      hasMore := true;
      quantities := map[];
      addedItems := {};
      loading := false;
    }

    /** The quantity shown in a row. */
    function Shown(id: Value): (q: int)
      reads this
      requires Valid()
      ensures q >= 1
      ensures ToStr(id) in quantities ==> q == quantities[ToStr(id)]
    {
      PickedQty(quantities, id)
    }

    predicate IsAdded(id: Value)
      reads this
    {
      ToStr(id) in addedItems
    }

    /** `handleQuantityChange` with `parseInt(value)`. */
    method QuantityChange(id: Value, parsed: Option<int>)
      requires Valid()
      modifies this
      ensures Valid() && quantities == old(quantities)[ToStr(id) := ClampQty(parsed)]
      ensures products == old(products) && page == old(page) && hasMore == old(hasMore)
      ensures addedItems == old(addedItems) && loading == old(loading)
    {
      quantities := quantities[ToStr(id) := ClampQty(parsed)];
    }

    /** The row's "−" button: disabled at 1 and once the row is added. */
    method MinusClick(id: Value)
      requires Valid()
      modifies this
      ensures Valid()
      ensures quantities == if old(Shown(id)) <= 1 || old(IsAdded(id)) then old(quantities)
                            else old(quantities)[ToStr(id) := old(Shown(id)) - 1]
      ensures products == old(products) && page == old(page) && hasMore == old(hasMore)
      ensures addedItems == old(addedItems) && loading == old(loading)
    {
      var q := Shown(id);
      if q <= 1 || IsAdded(id) {
        return;
      }
      QuantityChange(id, Some(q - 1));
    }

    /** The row's "+" button: disabled once the row is added. */
    method PlusClick(id: Value)
      requires Valid()
      modifies this
      ensures Valid()
      ensures quantities == if old(IsAdded(id)) then old(quantities)
                            else old(quantities)[ToStr(id) := old(Shown(id)) + 1]
      ensures products == old(products) && page == old(page) && hasMore == old(hasMore)
      ensures addedItems == old(addedItems) && loading == old(loading)
    {
      if IsAdded(id) {
        return;
      }
      QuantityChange(id, Some(Shown(id) + 1));
    }

    /** The row's "add" button running `handleAddToCart`: the product goes
        to the cart with the picked quantity and the row is marked added,
        which disables this button and the quantity controls. */
    method AddClick(cart: CartProvider, id: Value, product: Line)
      requires Valid() && cart.Valid()
      modifies this, cart
      ensures Valid() && cart.Valid()
      ensures cart.items == if old(IsAdded(id)) then old(cart.items)
                            else AddLine(old(cart.items), product.(quantity := old(Shown(id))))
      ensures cart.store == old(cart.store) && cart.loaded == old(cart.loaded)
      ensures addedItems == old(addedItems) + {ToStr(id)}
      ensures quantities == old(quantities) && products == old(products)
      ensures page == old(page) && hasMore == old(hasMore) && loading == old(loading)
    {
      if IsAdded(id) {
        return;
      }
      var quantity := Shown(id);
      cart.AddToCart(product.(quantity := quantity));
      addedItems := addedItems + {ToStr(id)};
    }

    /** `loadProducts` up to the request: nothing without a session. */
    method BeginLoad(token: Option<string>, currentPage: int) returns (requested: Option<int>)
      requires Valid()
      modifies this
      ensures Valid() && requested == (if Present(token) then Some(currentPage) else None)
      ensures loading == (old(loading) || Present(token))
      ensures products == old(products) && page == old(page) && hasMore == old(hasMore)
      ensures quantities == old(quantities) && addedItems == old(addedItems)
    {
      if !Present(token) {
        return None;
      }
      loading := true;
      requested := Some(currentPage);
    }

    /** `loadProducts` from the response to the `finally`. */
    method FinishLoad(r: ProductsResponse)
      requires Valid()
      modifies this
      ensures Valid() && !loading
      ensures products == if r.Ok? then Dedup(old(products) + r.data) else old(products)
      ensures hasMore == (r.Ok? && HasMoreAfter(r.meta))
      ensures page == old(page) && quantities == old(quantities) && addedItems == old(addedItems)
    {
      if r.Ok? {
        var combined := products + r.data;
        DedupMerges(combined);
        products := Dedup(combined);
        hasMore := HasMoreAfter(r.meta);
      } else {
        hasMore := false;
      }
      loading := false;
    }

    /** `handleLoadMore`: the next page is both stored and requested. */
    method LoadMore(token: Option<string>) returns (requested: Option<int>)
      requires Valid()
      modifies this
      ensures Valid() && page == old(page) + 1
      ensures requested == (if Present(token) then Some(old(page) + 1) else None)
      ensures products == old(products) && hasMore == old(hasMore)
      ensures quantities == old(quantities) && addedItems == old(addedItems)
    {
      page := page + 1;
      requested := BeginLoad(token, page);
    }
  }
}
