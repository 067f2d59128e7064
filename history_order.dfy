/**
 * The order history page (src/page/HistoryOrder.jsx): the response
 * handler of the list request, the client-side status and code filter,
 * the per-order total and the pager.
 *
 * `toLowerCase` is a parameter: the model does not fix a case mapping.
 */
module HistoryOrder {
  import opened Js

  /** `limit`. */
  const PageSize: nat := 10

  /** An order row's `items` on the client: an array of
      (`price`, `quantity`) pairs (0 standing for 0 or absent, which `|| 0`
      treats alike), or anything that is not an array. */
  datatype HistItem = HistItem(price: int, quantity: int)
  datatype ItemsField = ItemList(items: seq<HistItem>) | NotAList

  datatype Order = Order(id: Value, code: string, status: Value, items: ItemsField)

  // ---------------------------------------------------------------------
  // Order total

  function ItemsTotal(items: seq<HistItem>): int
  {
    if items == [] then 0 else items[0].price * items[0].quantity + ItemsTotal(items[1..])
  }

  /** `getTotalPrice`: anything that is not an array totals 0. */
  function OrderTotal(f: ItemsField): int
  {
    match f
    case NotAList => 0
    case ItemList(items) => ItemsTotal(items)
  }

  lemma {:induction false} ItemsTotalAppend(a: seq<HistItem>, b: seq<HistItem>)
    ensures ItemsTotal(a + b) == ItemsTotal(a) + ItemsTotal(b)
    decreases |a|
  {
    if a != [] {
      assert (a + b)[0] == a[0] && (a + b)[1..] == a[1..] + b;
      ItemsTotalAppend(a[1..], b);
    } else {
      assert a + b == b;
    }
  }

  /** The total of an order is the sum of its lines' totals, and is not
      negative when no price or quantity is. */
  lemma {:induction false} OrderTotalNonNegative(items: seq<HistItem>)
    requires forall i :: 0 <= i < |items| ==> items[i].price >= 0 && items[i].quantity >= 0
    ensures OrderTotal(ItemList(items)) >= 0
    decreases |items|
  {
    if items != [] {
      OrderTotalNonNegative(items[1..]);
    }
  }

  /** A value that is not an array, and an empty list, total 0; a line
      whose price or quantity is missing (0 here) adds nothing. */
  lemma {:induction false} MissingPartsAddNothing(items: seq<HistItem>, x: HistItem)
    requires x.price == 0 || x.quantity == 0
    ensures OrderTotal(NotAList) == 0 && OrderTotal(ItemList([])) == 0
    ensures OrderTotal(ItemList(items + [x])) == OrderTotal(ItemList(items))
  {
    ItemsTotalAppend(items, [x]);
    assert ItemsTotal([x]) == x.price * x.quantity + ItemsTotal([]);
  }

  /** The status cell: 'pending' is shown in Russian, anything else as it is. */
  function StatusLabel(status: Value): (r: Value)
    ensures status == Str("pending") ==> r == Str("В обработке")
    ensures status != Str("pending") ==> r == status
  {
    if status == Str("pending") then Str("В обработке") else status
  }

  // ---------------------------------------------------------------------
  // Filtering

  /** The three status tests: a status filter other than 'all' rejects an
      order whose status is not the filter's own value; a filter value
      outside the three named ones rejects nothing. */
  predicate StatusPasses(filterStatus: string, status: Value)
  {
    filterStatus != "all" ==>
      && (filterStatus == "pending" ==> status == Str("pending"))
      && (filterStatus == "assembled" ==> status == Str("assembled"))
      && (filterStatus == "in_transit" ==> status == Str("in_transit"))
  }

  /** A non-blank search keeps the orders whose lower-cased code contains
      the lower-cased term (the term itself is not trimmed). */
  predicate SearchPasses(searchTerm: string, code: string, lower: string -> string)
  {
    !IsBlank(searchTerm) ==> Contains(lower(code), lower(searchTerm))
  }

  predicate Keep(o: Order, filterStatus: string, searchTerm: string, lower: string -> string)
  {
    StatusPasses(filterStatus, o.status) && SearchPasses(searchTerm, o.code, lower)
  }

  /** `filteredOrders`. */
  function Filtered(orders: seq<Order>, filterStatus: string, searchTerm: string,
                    lower: string -> string): seq<Order>
  {
    if orders == [] then []
    else if Keep(orders[0], filterStatus, searchTerm, lower)
    then [orders[0]] + Filtered(orders[1..], filterStatus, searchTerm, lower)
    else Filtered(orders[1..], filterStatus, searchTerm, lower)
  }

  /** An order is shown exactly when it was loaded and passes both tests. */
  lemma {:induction false} FilteredMembers(orders: seq<Order>, f: string, t: string, lower: string -> string)
    ensures forall o :: o in Filtered(orders, f, t, lower) <==> o in orders && Keep(o, f, t, lower)
    decreases |orders|
  {
    if orders != [] {
      FilteredMembers(orders[1..], f, t, lower);
      assert forall o :: o in orders <==> o == orders[0] || o in orders[1..];
    }
  }

  /** Filtering keeps the server's order and never invents a row. */
  lemma {:induction false} FilteredKeepsOrder(orders: seq<Order>, f: string, t: string, lower: string -> string)
    ensures Subsequence(Filtered(orders, f, t, lower), orders)
    decreases |orders|
  {
    if orders != [] {
      var rest := Filtered(orders[1..], f, t, lower);
      FilteredKeepsOrder(orders[1..], f, t, lower);
      assert orders == [orders[0]] + orders[1..];
      if Keep(orders[0], f, t, lower) {
        assert ([orders[0]] + rest)[1..] == rest;
      } else {
        SubsequenceWeaken(rest, orders[1..], orders[0]);
      }
    }
  }

  /** 'all' with a blank search shows every loaded order. */
  lemma {:induction false} AllBlankShowsEverything(orders: seq<Order>, t: string, lower: string -> string)
    requires IsBlank(t)
    ensures Filtered(orders, "all", t, lower) == orders
    decreases |orders|
  {
    if orders != [] {
      AllBlankShowsEverything(orders[1..], t, lower);
    }
  }

  /** A named status filter with a blank search shows exactly the loaded
      orders carrying that status. */
  lemma StatusFilterExact(orders: seq<Order>, f: string, t: string, lower: string -> string)
    requires f == "pending" || f == "assembled" || f == "in_transit"
    requires IsBlank(t)
    ensures forall o :: o in Filtered(orders, f, t, lower) <==> o in orders && o.status == Str(f)
  {
    FilteredMembers(orders, f, t, lower);
  }

  /** With 'all', a non-blank search shows exactly the orders whose code
      contains the term, both lower-cased. */
  lemma SearchExact(orders: seq<Order>, t: string, lower: string -> string)
    requires !IsBlank(t)
    ensures forall o :: o in Filtered(orders, "all", t, lower) <==>
      o in orders && exists i :: OccursAt(lower(o.code), lower(t), i)
  {
    FilteredMembers(orders, "all", t, lower);
    forall o | o in orders {
      ContainsAt(lower(o.code), lower(t));
    }
  }

  /** Filtering what is already filtered changes nothing. */
  lemma {:induction false} FilterIdempotent(orders: seq<Order>, f: string, t: string, lower: string -> string)
    ensures Filtered(Filtered(orders, f, t, lower), f, t, lower) == Filtered(orders, f, t, lower)
    decreases |orders|
  {
    if orders != [] {
      FilterIdempotent(orders[1..], f, t, lower);
      var rest := Filtered(orders[1..], f, t, lower);
      if Keep(orders[0], f, t, lower) {
        assert ([orders[0]] + rest)[0] == orders[0] && ([orders[0]] + rest)[1..] == rest;
      }
    }
  }

  // ---------------------------------------------------------------------
  // Pager

  /** `Math.ceil(totalOrders / limit)`. */
  function TotalPages(totalOrders: nat): (r: nat)
    ensures r * PageSize >= totalOrders
    ensures r > 0 ==> (r - 1) * PageSize < totalOrders
    ensures r == 0 <==> totalOrders == 0
  {
    (totalOrders + PageSize - 1) / PageSize
  }

  /** "Назад": `Math.max(prev - 1, 1)`, disabled on page 1. */
  function PrevPage(page: int): (r: int)
    ensures r >= 1
    ensures page > 1 ==> r == page - 1
  {
    if page - 1 > 1 then page - 1 else 1
  }

  predicate PrevDisabled(page: int)
  {
    page == 1
  }

  /** "Вперед" as written: `Math.min(prev + 1, totalPages)`, disabled only
      when the page equals the page count. */
  function NextPageAsWritten(page: int, totalPages: nat): int
  {
    if page + 1 < totalPages then page + 1 else totalPages
  }

  predicate NextDisabledAsWritten(page: int, totalPages: nat)
  {
    page == totalPages
  }

  /** With no orders there are 0 pages, so page 1 leaves "Вперед" enabled
      and a click moves to page 0, which is then requested. */
  lemma NextOnEmptyHistoryAsWritten()
    ensures TotalPages(0) == 0
    ensures !NextDisabledAsWritten(1, TotalPages(0))
    ensures NextPageAsWritten(1, TotalPages(0)) == 0
  {
  }

  /** The intended pager counts at least one page: the page count of a
      non-empty history, and a single page for an empty one. */
  function PageCount(totalOrders: nat): (r: nat)
    ensures r >= 1 && r >= TotalPages(totalOrders)
    ensures totalOrders > 0 ==> r == TotalPages(totalOrders)
    ensures totalOrders == 0 ==> r == 1
  {
    if TotalPages(totalOrders) > 1 then TotalPages(totalOrders) else 1
  }

  function NextPage(page: int, totalOrders: nat): (r: int)
    ensures page >= 1 ==> 1 <= r
    ensures r <= PageCount(totalOrders)
    ensures page < PageCount(totalOrders) ==> r == page + 1
  {
    var n := PageCount(totalOrders);
    if page + 1 < n then page + 1 else n
  }

  /** Disabled, as written, only on the last page itself: from a page past
      the end "Вперед" moves back to the last page. */
  predicate NextDisabled(page: int, totalOrders: nat)
  {
    page == PageCount(totalOrders)
  }

  /** With at least one order the corrected pager is the one as written:
      the fix changes only the empty history. */
  lemma NextAgreesOnNonEmptyHistory(page: int, totalOrders: nat)
    requires totalOrders > 0
    ensures NextPage(page, totalOrders) == NextPageAsWritten(page, TotalPages(totalOrders))
    ensures NextDisabled(page, totalOrders) <==> NextDisabledAsWritten(page, TotalPages(totalOrders))
  {
  }

  /** From a page past the end, left by a reply with a smaller total,
      "Вперед" is enabled and moves back to the last page. */
  lemma NextFromPastTheEnd(page: int, totalOrders: nat)
    requires page > PageCount(totalOrders)
    ensures !NextDisabled(page, totalOrders)
    ensures NextPage(page, totalOrders) == PageCount(totalOrders)
  {
  }

  /** From any page in range, both buttons keep the page in
      [1, page count]; from the last page "Вперед" is disabled. */
  lemma PagerStaysInRange(page: int, totalOrders: nat)
    requires 1 <= page <= PageCount(totalOrders)
    ensures 1 <= PrevPage(page) <= PageCount(totalOrders)
    ensures 1 <= NextPage(page, totalOrders) <= PageCount(totalOrders)
    ensures NextDisabled(page, totalOrders) <==> page == PageCount(totalOrders)
  {
  }

  // ---------------------------------------------------------------------
  // Page state

  /** The list response: the body's `code`, `payload` (None when falsy)
      and `total` (0 when falsy), or a failed request or unreadable body. */
  datatype ListResponse =
    | Body(code: Value, payload: Option<seq<Order>>, total: nat)
    | Failed

  class HistoryPage {
    var orders: seq<Order>
    var totalOrders: nat
    var loading: bool
    var page: int
    var filterStatus: string
    var searchTerm: string

    ghost predicate Valid()
      reads this
    {
      page >= 1
    }

    constructor ()
      ensures Valid() && orders == [] && totalOrders == 0 && loading && page == 1
      ensures filterStatus == "all" && searchTerm == ""
    {
      orders := [];
      totalOrders := 0;
      loading := true;
      page := 1;
      filterStatus := "all";
      searchTerm := "";
    }

    /** The list effect: with a session it requests the current page. */
    method FetchEffect(token: Option<string>) returns (requested: Option<int>)
      requires Valid()
      modifies this
      ensures Valid() && orders == old(orders) && totalOrders == old(totalOrders) && page == old(page)
      ensures filterStatus == old(filterStatus) && searchTerm == old(searchTerm)
      ensures requested == if Present(token) then Some(page) else None
      ensures loading == (Present(token) || old(loading))
    {
      if !Present(token) {
        return None;
      }
      loading := true;
      requested := Some(page);
    }

    /** `code === 200` takes `payload || []` and `total || 0`; any other
        code, a failed request or an unreadable body clears the list. */
    method OnResponse(r: ListResponse)
      requires Valid()
      modifies this
      ensures Valid() && !loading && page == old(page)
      ensures filterStatus == old(filterStatus) && searchTerm == old(searchTerm)
      ensures if r.Body? && r.code == Num(200)
              then orders == (if r.payload.Some? then r.payload.value else []) && totalOrders == r.total
              else orders == [] && totalOrders == 0
    {
      if r.Body? && r.code == Num(200) {
        orders := if r.payload.Some? then r.payload.value else [];
        totalOrders := r.total;
      } else {
        orders := [];
        totalOrders := 0;
      }
      loading := false;
    }

    method PrevClick()
      requires Valid()
      modifies this
      ensures Valid() && page == (if PrevDisabled(old(page)) then old(page) else PrevPage(old(page)))
      ensures orders == old(orders) && totalOrders == old(totalOrders) && loading == old(loading)
      ensures filterStatus == old(filterStatus) && searchTerm == old(searchTerm)
    {
      if !PrevDisabled(page) {
        page := PrevPage(page);
      }
    }

    /** The next-page button with the page count floored at one. */
    method NextClick()
      requires Valid()
      modifies this
      ensures Valid()
      ensures page == (if NextDisabled(old(page), totalOrders) then old(page) else NextPage(old(page), totalOrders))
      ensures orders == old(orders) && totalOrders == old(totalOrders) && loading == old(loading)
      ensures filterStatus == old(filterStatus) && searchTerm == old(searchTerm)
    {
      if !NextDisabled(page, totalOrders) {
        page := NextPage(page, totalOrders);
      }
    }

    method SetFilter(f: string)
      modifies this
      ensures filterStatus == f && searchTerm == old(searchTerm) && page == old(page)
      ensures orders == old(orders) && totalOrders == old(totalOrders) && loading == old(loading)
    {
      filterStatus := f;
    }

    method SetSearch(t: string)
      modifies this
      ensures searchTerm == t && filterStatus == old(filterStatus) && page == old(page)
      ensures orders == old(orders) && totalOrders == old(totalOrders) && loading == old(loading)
    {
      searchTerm := t;
    }

    /** The rows shown once loading is over. */
    function Visible(lower: string -> string): (r: seq<Order>)
      reads this
      ensures forall o :: o in r <==> o in orders && Keep(o, filterStatus, searchTerm, lower)
    {
      FilteredMembers(orders, filterStatus, searchTerm, lower);
      Filtered(orders, filterStatus, searchTerm, lower)
    }
  }
}
