/** services/backend/routes/orders.js: `POST /orders` prices the payload's
    items and numbers the order from the global counter; `GET
    /customers/orders` turns the page and limit query into a window. */
module OrdersRoute {
  import opened Wrappers
  import Counter

  /** A payload item; empty strings and `None` are missing fields. */
  datatype PayloadItem = PayloadItem(id: string, itemId: string, name: string, price: Option<int>, qty: Option<int>)

  /** The stored line: `{ itemId, name, qty, price, total }`. */
  datatype PricedItem = PricedItem(itemId: Option<string>, name: string, qty: int, price: int, total: int)

  /** The payload of `POST /orders`. `items` is `None` when it is missing or
      not an array. */
  datatype Payload = Payload(
    items: Option<seq<PayloadItem>>,
    shop: string,
    customerName: string,
    phone: string,
    deliveryFee: Option<int>,
    status: string)

  datatype StoredOrder = StoredOrder(
    orderNumber: int,
    shop: Option<string>,
    customerId: string,
    customerName: string,
    phone: string,
    items: seq<PricedItem>,
    itemsTotal: int,
    deliveryFee: int,
    totalPrice: int,
    status: string)

  datatype RouteError = Unauthorized | NoItems | OrderFailed

  /** `x || d` on a number: missing and 0 both give the default. */
  function OrDefault(x: Option<int>, d: int): (r: int)
    ensures x.Some? && x.value != 0 ==> r == x.value
    ensures x.None? || x.value == 0 ==> r == d
  {
    match x
    case None => d
    case Some(v) => if v == 0 then d else v
  }

  /** `x || d` on a string. */
  function OrText(x: string, d: string): string
  {
    if x == "" then d else x
  }

  /** The `items.map` callback: price defaults to 0, quantity to 1, the name
      to `Item`, and the item reference to `_id`, then `itemId`, then null. */
  function PricedItemOf(it: PayloadItem): (p: PricedItem)
    ensures p.total == p.price * p.qty
    ensures p.qty != 0 && p.name != ""
  {
    var price := OrDefault(it.price, 0);
    var qty := OrDefault(it.qty, 1);
    PricedItem(
      if it.id != "" then Some(it.id) else if it.itemId != "" then Some(it.itemId) else None,
      OrText(it.name, "Item"),
      qty,
      price,
      price * qty)
  }

  function SumTotals(items: seq<PricedItem>): int
  {
    if items == [] then 0 else SumTotals(items[..|items| - 1]) + items[|items| - 1].total
  }

  /** The `items.map` loop with its `itemsTotal += total` accumulation. */
  method PriceItems(items: seq<PayloadItem>) returns (priced: seq<PricedItem>, itemsTotal: int)
    ensures |priced| == |items|
    ensures forall k :: 0 <= k < |items| ==> priced[k] == PricedItemOf(items[k])
    ensures itemsTotal == SumTotals(priced)
  {
    priced, itemsTotal := [], 0;
    for i := 0 to |items|
      invariant |priced| == i
      invariant forall k :: 0 <= k < i ==> priced[k] == PricedItemOf(items[k])
      invariant itemsTotal == SumTotals(priced)
    {
      var line := PricedItemOf(items[i]);
      assert (priced + [line])[..i] == priced;
      itemsTotal := itemsTotal + line.total;
      priced := priced + [line];
    }
  }

  /** Totals add up over a split list, so the order total does not depend on
      how the lines are grouped. */
  lemma {:induction false} SumTotalsAppend(a: seq<PricedItem>, b: seq<PricedItem>)
    ensures SumTotals(a + b) == SumTotals(a) + SumTotals(b)
    decreases |b|
  {
    if b != [] {
      var init := b[..|b| - 1];
      assert (a + b)[..|a + b| - 1] == a + init;
      SumTotalsAppend(a, init);
    } else {
      assert a + b == a;
    }
  }

  /** With non-negative prices and quantities every line total is part of
      the items total. */
  lemma {:induction false} SumTotalsCoversLine(items: seq<PricedItem>, k: nat)
    requires k < |items|
    requires forall j :: 0 <= j < |items| ==> items[j].total >= 0
    ensures items[k].total <= SumTotals(items)
  {
    var init := items[..|items| - 1];
    SumTotalsNonNegative(init);
    if k < |init| {
      SumTotalsCoversLine(init, k);
    }
  }

  lemma {:induction false} SumTotalsNonNegative(items: seq<PricedItem>)
    requires forall j :: 0 <= j < |items| ==> items[j].total >= 0
    ensures SumTotals(items) >= 0
  {
    if items != [] {
      SumTotalsNonNegative(items[..|items| - 1]);
    }
  }

  /** `POST /orders`. `user` is the authenticated user id, `None` when the
      request carries none; `counterUp` is false when `Counter.next` rejects
      and `saveUp` false when `order.save()` does. */
  method PlaceOrder(counter: Counter.CounterStore, user: Option<string>, payload: Payload, counterUp: bool, saveUp: bool)
    returns (r: Result<StoredOrder, RouteError>)
    modifies counter
    ensures user.None? ==> r == Err(Unauthorized)
    ensures user.Some? && (payload.items.None? || payload.items.value == []) ==> r == Err(NoItems)
    ensures user.Some? && payload.items.Some? && payload.items.value != [] && !counterUp ==> r == Err(OrderFailed)
    ensures user.None? || payload.items.None? || payload.items.value == [] || !counterUp ==>
              counter.seqs == old(counter.seqs)
    // a failed save still uses up the number the counter gave
    ensures user.Some? && payload.items.Some? && payload.items.value != [] && counterUp && !saveUp ==>
              r == Err(OrderFailed) && counter.seqs == Counter.Bump(old(counter.seqs), "orderNumber")
    ensures r.Ok? ==>
      user.Some? && payload.items.Some? && payload.items.value != [] && counterUp && saveUp &&
      counter.seqs == Counter.Bump(old(counter.seqs), "orderNumber") &&
      var o := r.value;
      var fee := OrDefault(payload.deliveryFee, 0);
      o.orderNumber == Counter.Current(old(counter.seqs), "orderNumber") + 1 &&
      |o.items| == |payload.items.value| &&
      (forall k :: 0 <= k < |o.items| ==> o.items[k] == PricedItemOf(payload.items.value[k])) &&
      o.itemsTotal == SumTotals(o.items) &&
      o.deliveryFee == fee && o.totalPrice == o.itemsTotal + fee &&
      o.status == OrText(payload.status, "received") &&
      o.customerId == user.value &&
      o.shop == (if payload.shop == "" then None else Some(payload.shop)) &&
      o.customerName == payload.customerName && o.phone == payload.phone
  {
    if user.None? {
      return Err(Unauthorized);
    }
    if payload.items.None? || payload.items.value == [] {
      return Err(NoItems);
    }
    var items, itemsTotal := PriceItems(payload.items.value);
    var next := counter.Next("orderNumber", counterUp);
    if next.Err? {
      return Err(OrderFailed);
    }
    if !saveUp {
      return Err(OrderFailed);
    }
    var fee := OrDefault(payload.deliveryFee, 0);
    r := Ok(StoredOrder(
      next.value,
      if payload.shop == "" then None else Some(payload.shop),
      user.value,
      payload.customerName,
      payload.phone,
      items,
      itemsTotal,
      fee,
      itemsTotal + fee,
      OrText(payload.status, "received")));
  }

  // ---------------------------------------------------------------- paging

  datatype Window = Window(page: int, limit: int, skip: int)

  /** `page = max(1, page || 1)`, `limit = min(50, limit || 20)`,
      `skip = (page - 1) * limit`. The query values are strings, so the
      `||` default applies only to a missing parameter: `?limit=0` keeps
      the limit 0. */
  function Paging(page: Option<int>, limit: Option<int>): (w: Window)
    ensures w.page >= 1 && w.limit <= 50
    ensures page.Some? && page.value >= 1 ==> w.page == page.value
    ensures page.None? || page.value < 1 ==> w.page == 1
    ensures limit.None? ==> w.limit == 20
    ensures limit.Some? && limit.value <= 50 ==> w.limit == limit.value
    ensures limit.Some? && limit.value > 50 ==> w.limit == 50
    // the window starts after every earlier page
    ensures w.skip == (w.page - 1) * w.limit
  {
    var p := page.GetOr(1);
    var l := limit.GetOr(20);
    var p' := if p < 1 then 1 else p;
    var l' := if l > 50 then 50 else l;
    Window(p', l', (p' - 1) * l')
  }

  function Min(a: int, b: int): int { if a <= b then a else b }

  /** What `.skip(skip).limit(limit)` returns from the newest-first list:
      `None` is the error MongoDB raises for a negative skip (answered 500),
      a limit of 0 means no limit, and a negative limit counts by its
      absolute value. */
  function Served<T>(orders: seq<T>, w: Window): (r: Option<seq<T>>)
    ensures r.None? <==> w.skip < 0
    ensures r.Some? ==>
              var from := Min(w.skip, |orders|);
              from + |r.value| <= |orders| && r.value == orders[from..from + |r.value|]
    ensures r.Some? && w.limit == 0 ==> |r.value| == |orders| - Min(w.skip, |orders|)
    ensures r.Some? && w.limit != 0 ==>
              |r.value| == Min(if w.limit < 0 then -w.limit else w.limit, |orders| - Min(w.skip, |orders|))
  {
    if w.skip < 0 then None
    else
      var from := Min(w.skip, |orders|);
      var count := if w.limit == 0 then |orders| - from
                   else Min(if w.limit < 0 then -w.limit else w.limit, |orders| - from);
      Some(orders[from..from + count])
  }

  /** Without `?limit` or with a positive one, a page holds at most 50
      orders. */
  lemma PageAtMostFifty<T>(orders: seq<T>, page: Option<int>, limit: Option<int>)
    requires limit.None? || limit.value >= 1
    ensures Served(orders, Paging(page, limit)).Some?
    ensures |Served(orders, Paging(page, limit)).value| <= 50
  {
    var w := Paging(page, limit);
    NonNegativeProduct(w.page - 1, w.limit);
  }

  lemma NonNegativeProduct(a: int, b: int)
    requires a >= 0 && b >= 0
    ensures a * b >= 0
  {
  }

  /** `?limit=0` on the first page returns every order of the customer:
      the 50 cap does not hold there. */
  lemma LimitZeroServesAll<T>(orders: seq<T>)
    ensures Served(orders, Paging(None, Some(0))) == Some(orders)
  {
    assert orders[0..|orders|] == orders;
  }

  /** Consecutive pages follow each other without gap or overlap: page
      `p + 1` starts where page `p` ends. */
  lemma PagesTile(p: int, limit: Option<int>)
    requires p >= 1
    ensures Paging(Some(p + 1), limit).skip == Paging(Some(p), limit).skip + Paging(Some(p), limit).limit
  {
  }

  /** With a positive limit, different pages read disjoint windows. */
  lemma PagesDisjoint(p: int, q: int, limit: Option<int>, k: int)
    requires 1 <= p < q
    requires Paging(Some(p), limit).limit >= 1
    requires Paging(Some(p), limit).skip <= k < Paging(Some(p), limit).skip + Paging(Some(p), limit).limit
    ensures !(Paging(Some(q), limit).skip <= k < Paging(Some(q), limit).skip + Paging(Some(q), limit).limit)
  {
    StartsAfter(p, q, limit);
  }

  /** With a positive limit, a later page skips past the whole of an
      earlier one. */
  lemma StartsAfter(p: int, q: int, limit: Option<int>)
    requires 1 <= p < q
    requires Paging(Some(p), limit).limit >= 1
    ensures Paging(Some(q), limit).skip >= Paging(Some(p), limit).skip + Paging(Some(p), limit).limit
  {
    var wp, wq := Paging(Some(p), limit), Paging(Some(q), limit);
    var l := wp.limit;
    assert wq.limit == l && wp.skip == (p - 1) * l && wq.skip == (q - 1) * l;
    var d := q - 1 - p;
    assert d * l >= 0;
    assert (q - 1) * l == (p - 1) * l + l + d * l;
  }
}
