/** The store-facing half of order intake in services/backend/server.js:
    the web order route `POST /api/orders` with its two-step order
    numbering, the chat path of `POST /webhook/whatsapp` (shop lookup, shop
    counter, order creation, menu and status replies) and the status route
    `PATCH /api/orders/:id/status`. Shops, their order counters, the global
    counter and the orders are held by one `OrderDesk`. */
module OrderDesk {
  import opened Wrappers
  import opened Text
  import Counter
  import opened Phones
  import opened ChatCommands

  // ---------------------------------------------------------------- data

  /** A menu item with its availability flag (schema default `true`). */
  datatype StockedItem = StockedItem(item: MenuItem, available: bool)

  datatype Shop = Shop(id: string, phone: string, name: string, pincode: string, menu: seq<StockedItem>)

  /** The address copied into an order; `tag` is its label. */
  datatype AddressSnapshot = AddressSnapshot(tag: string, address: string, phone: string, pincode: string)

  datatype Order = Order(
    id: string,
    shop: Option<string>,
    orderNumber: Option<int>,
    customer: Option<string>,
    customerName: string,
    phone: string,
    address: Option<AddressSnapshot>,
    lines: seq<OrderLine>,
    total: int,
    status: string)

  /** A line of a web order request; a missing price or quantity is `None`. */
  datatype WebItem = WebItem(name: string, price: Option<int>, qty: Option<int>)

  /** The body of `POST /api/orders`; an empty string is a missing field. */
  datatype WebOrderRequest = WebOrderRequest(
    shop: string,
    customerName: string,
    phone: string,
    items: seq<WebItem>,
    address: Option<AddressSnapshot>)

  /** `CreateFailed` is the 500 of the route's catch, reached when
      `Shop.findById` throws on a shop id that is not an object id. */
  datatype WebOrderError = NameAndPhoneRequired | InvalidPhone | CreateFailed | InvalidShop | PincodeNotServed

  datatype StatusError = StatusRequired | InvalidRequest | NotFound

  /** The counter the web path draws order numbers from. */
  const GlobalCounterName := "orderNumber"

  // ---------------------------------------------------------------- lookups

  /** `MenuItem.find({ shop, available: true })`: the available items, in
      stored order. */
  function Available(menu: seq<StockedItem>): (items: seq<MenuItem>)
    ensures |items| <= |menu|
  {
    if menu == [] then []
    else Available(menu[..|menu| - 1]) + (if menu[|menu| - 1].available then [menu[|menu| - 1].item] else [])
  }

  /** An item is listed exactly when the menu holds it as available. */
  lemma {:induction false} AvailableKeepsAvailable(menu: seq<StockedItem>, x: MenuItem)
    ensures x in Available(menu) <==> exists k :: 0 <= k < |menu| && menu[k].available && menu[k].item == x
  {
    if menu != [] {
      var init := menu[..|menu| - 1];
      AvailableKeepsAvailable(init, x);
      if exists k :: 0 <= k < |init| && init[k].available && init[k].item == x {
        var k :| 0 <= k < |init| && init[k].available && init[k].item == x;
        assert menu[k] == init[k];
      }
      if exists k :: 0 <= k < |menu| && menu[k].available && menu[k].item == x {
        var k :| 0 <= k < |menu| && menu[k].available && menu[k].item == x;
        if k < |init| { assert init[k] == menu[k]; }
      }
    }
  }

  /** `Shop.findById(id)`: the position of the shop with that id. */
  function FindShop(shops: seq<Shop>, id: string): (r: Option<nat>)
    ensures r.Some? ==> r.value < |shops| && shops[r.value].id == id
    ensures r.None? ==> forall k :: 0 <= k < |shops| ==> shops[k].id != id
  {
    if shops == [] then None
    else if shops[0].id == id then Some(0)
    else match FindShop(shops[1..], id)
      case None => None
      case Some(k) => Some(k + 1)
  }

  /** `Shop.findOne({ phone })`: the position of the shop with that phone. */
  function FindShopByPhone(shops: seq<Shop>, phone: string): (r: Option<nat>)
    ensures r.Some? ==> r.value < |shops| && shops[r.value].phone == phone
    ensures r.None? ==> forall k :: 0 <= k < |shops| ==> shops[k].phone != phone
  {
    if shops == [] then None
    else if shops[0].phone == phone then Some(0)
    else match FindShopByPhone(shops[1..], phone)
      case None => None
      case Some(k) => Some(k + 1)
  }

  /** `Order.findById(id)`: the position of the order with that id. */
  function FindOrder(orders: seq<Order>, id: string): (r: Option<nat>)
    ensures r.Some? ==> r.value < |orders| && orders[r.value].id == id
    ensures r.Some? ==> forall j :: 0 <= j < r.value ==> orders[j].id != id
    ensures r.None? ==> forall k :: 0 <= k < |orders| ==> orders[k].id != id
  {
    if orders == [] then None
    else if orders[0].id == id then Some(0)
    else match FindOrder(orders[1..], id)
      case None => None
      case Some(k) => Some(k + 1)
  }

  predicate IsHexDigit(c: char)
  {
    '0' <= c <= '9' || 'a' <= c <= 'f' || 'A' <= c <= 'F'
  }

  /** An id the order store can look up: 24 hexadecimal digits. Any other
      id makes `findById` throw. */
  predicate IsObjectId(id: string)
  {
    |id| == 24 && forall i :: 0 <= i < |id| ==> IsHexDigit(id[i])
  }

  // ---------------------------------------------------------------- display id

  /** `orderNumber ? '#' + String(orderNumber).padStart(6, '0') : _id`. */
  function DisplayId(o: Order): string
  {
    match o.orderNumber
    case Some(n) => if n != 0 then "#" + PadStart(IntToString(n), 6, '0') else o.id
    case None => o.id
  }

  /** A positive order number is shown as `#` and at least six digits that
      read back as the number, so distinct numbers are shown differently. */
  lemma DisplayIdOfNumber(o: Order)
    requires o.orderNumber.Some? && o.orderNumber.value >= 1
    ensures var d := DisplayId(o);
            |d| >= 7 && d[0] == '#' && AllDigits(d[1..]) && DecimalValue(d[1..]) == o.orderNumber.value
  {
    var n: nat := o.orderNumber.value;
    PaddedNumberRoundTrip(n, 6);
    assert DisplayId(o)[1..] == PadStart(NatToString(n), 6, '0');
  }

  /** Two orders with distinct positive numbers get distinct display ids. */
  lemma DisplayIdsDiffer(a: Order, b: Order)
    requires a.orderNumber.Some? && a.orderNumber.value >= 1
    requires b.orderNumber.Some? && b.orderNumber.value >= 1
    requires a.orderNumber != b.orderNumber
    ensures DisplayId(a) != DisplayId(b)
  {
    DisplayIdOfNumber(a);
    DisplayIdOfNumber(b);
  }

  // ---------------------------------------------------------------- web order totals

  /** The line the order schema stores for a request item: a missing
      quantity defaults to 1 and a missing price to 0. */
  function StoredLine(it: WebItem): OrderLine
  {
    OrderLine(it.name, it.qty.GetOr(1), it.price.GetOr(0))
  }

  function StoredLines(items: seq<WebItem>): (ls: seq<OrderLine>)
    ensures |ls| == |items|
  {
    seq(|items|, k requires 0 <= k < |items| => StoredLine(items[k]))
  }

  /** `items.reduce((s, it) => s + Number(it.price || 0) * Number(it.qty || 0), 0)`:
      a missing quantity counts as 0. */
  function WebTotalAsWritten(items: seq<WebItem>): (t: int)
    // it agrees with the stored total when every quantity is given, and
    // otherwise can only fall short of it
    ensures (forall k :: 0 <= k < |items| ==> items[k].qty.Some?) ==> t == WebTotal(items)
    ensures (forall k :: 0 <= k < |items| ==> items[k].price.GetOr(0) >= 0) ==> t <= WebTotal(items)
  {
    if items == [] then 0
    else WebTotalAsWritten(items[..|items| - 1]) + items[|items| - 1].price.GetOr(0) * items[|items| - 1].qty.GetOr(0)
  }

  /** An item sent without a quantity is stored as one unit but adds nothing
      to the stored total. */
  lemma WebTotalAsWrittenDropsUnquantified()
    ensures var items := [WebItem("Tea", Some(20), None)];
            WebTotalAsWritten(items) == 0 && Sum(StoredLines(items)) == 20
  {
    var items := [WebItem("Tea", Some(20), None)];
    assert items[..0] == [];
    var ls := StoredLines(items);
    assert ls[..0] == [];
  }

  /** The total with a missing quantity read as 1, as the schema stores it. */
  function WebTotal(items: seq<WebItem>): (t: int)
    ensures (forall k :: 0 <= k < |items| ==> items[k].price.GetOr(0) >= 0 && items[k].qty.GetOr(1) >= 0) ==> t >= 0
  {
    if items == [] then 0
    else WebTotal(items[..|items| - 1]) + items[|items| - 1].price.GetOr(0) * items[|items| - 1].qty.GetOr(1)
  }

  /** The stored total is the sum of the stored lines' totals. */
  lemma {:induction false} WebTotalMatchesStoredLines(items: seq<WebItem>)
    ensures WebTotal(items) == Sum(StoredLines(items))
  {
    if items != [] {
      var init := items[..|items| - 1];
      WebTotalMatchesStoredLines(init);
      assert StoredLines(items)[..|items| - 1] == StoredLines(init);
    }
  }

  /** The pincode check of the web route: an address with a pincode must
      name the shop's pincode, surrounding white space ignored. */
  predicate DeliversTo(shop: Shop, address: Option<AddressSnapshot>)
  {
    address.None? || address.value.pincode == "" || Trim(address.value.pincode) == Trim(shop.pincode)
  }

  /** Why the web route turns a request away, checked in the route's order:
      missing name or phone, a phone `normalizePhoneInput` refuses, a shop
      id the store cannot cast, an unknown shop, an address pincode the
      shop does not serve. */
  function WebOrderRejection(shops: seq<Shop>, req: WebOrderRequest): (r: Option<WebOrderError>)
    ensures r.None? ==> req.customerName != "" && NormalizePhoneInput(req.phone).Some?
    ensures r.None? && req.shop != "" ==>
              IsObjectId(req.shop) &&
              FindShop(shops, req.shop).Some? && DeliversTo(shops[FindShop(shops, req.shop).value], req.address)
    ensures req.customerName == "" || req.phone == "" ==> r == Some(NameAndPhoneRequired)
    ensures req.customerName != "" && req.phone != "" && NormalizePhoneInput(req.phone).None? ==>
              r == Some(InvalidPhone)
    ensures req.customerName != "" && NormalizePhoneInput(req.phone).Some? && req.shop != "" ==>
              (!IsObjectId(req.shop) ==> r == Some(CreateFailed)) &&
              (IsObjectId(req.shop) && FindShop(shops, req.shop).None? ==> r == Some(InvalidShop)) &&
              ((IsObjectId(req.shop) && FindShop(shops, req.shop).Some? &&
                !DeliversTo(shops[FindShop(shops, req.shop).value], req.address)) ==> r == Some(PincodeNotServed))
  {
    if req.customerName == "" || req.phone == "" then Some(NameAndPhoneRequired)
    else if NormalizePhoneInput(req.phone).None? then Some(InvalidPhone)
    else if req.shop != "" && !IsObjectId(req.shop) then Some(CreateFailed)
    else if req.shop != "" && FindShop(shops, req.shop).None? then Some(InvalidShop)
    else if req.shop != "" && !DeliversTo(shops[FindShop(shops, req.shop).value], req.address) then Some(PincodeNotServed)
    else None
  }

  // ---------------------------------------------------------------- chat helpers

  /** `(fromRaw || '').replace(/^whatsapp:/i, '').trim()`. */
  function SenderPhone(from: string): string
  {
    var prefix := "whatsapp:";
    var stripped := if |from| >= |prefix| && Lower(from[..|prefix|]) == prefix then from[|prefix|..] else from;
    Trim(stripped)
  }

  /** `normalizePhoneInput(fromPhoneRaw) || fromPhoneRaw`. */
  function ChatOrderPhone(sender: string): (p: string)
    ensures NormalizePhoneInput(sender).Some? ==> IsPlusDigits(p)
  {
    NormalizePhoneInput(sender).GetOr(sender)
  }

  /** The reply to `menu <shopPhone>`. */
  function MenuReply(shops: seq<Shop>, shopPhone: string): (r: Reply)
    ensures r.ShopNotFound? <==> FindShopByPhone(shops, shopPhone).None?
    ensures FindShopByPhone(shops, shopPhone).Some? ==>
              var shop := shops[FindShopByPhone(shops, shopPhone).value];
              (r.NoItems? <==> Available(shop.menu) == []) &&
              (r.MenuListing? ==> r.shopName == shop.name && r.shopPhone == shop.phone &&
                                  |r.lines| == |Available(shop.menu)|)
  {
    match FindShopByPhone(shops, shopPhone)
    case None => ShopNotFound(shopPhone)
    case Some(k) =>
      var items := Available(shops[k].menu);
      if items == [] then NoItems(shops[k].name)
      else MenuListing(shops[k].name, shops[k].phone, MenuLines(items))
  }

  /** Ordering one unit by a letter the menu shows buys the item printed
      beside that letter, at the printed price. */
  lemma MenuLetterOrdersListedItem(shops: seq<Shop>, shopPhone: string, i: nat)
    requires MenuReply(shops, shopPhone).MenuListing?
    requires i < |MenuReply(shops, shopPhone).lines|
    requires MenuReply(shops, shopPhone).lines[i].letter.Some?
    ensures var line := MenuReply(shops, shopPhone).lines[i];
            var k := FindShopByPhone(shops, shopPhone).value;
            Evaluate(Available(shops[k].menu), [[line.letter.value]])
              == Priced([OrderLine(line.name, 1, line.price)], line.price)
  {
    var k := FindShopByPhone(shops, shopPhone).value;
    var items := Available(shops[k].menu);
    var line := MenuReply(shops, shopPhone).lines[i];
    var rest := [[line.letter.value]];
    MenuLabelResolves(items, i);
    var pairs := PairsOf(rest);
    assert pairs == [PairAt(rest, 0)];
    assert Trim(rest[0]) == rest[0];
    assert pairs[0] == Pair([line.letter.value], 1);
    assert pairs[..0] == [];
    assert Missing(items, pairs) == [];
    assert Found(items, pairs) == [(i, 1)];
    var lines := Evaluate(items, rest).lines;
    assert lines == [OrderLine(line.name, 1, line.price)];
    assert lines[..0] == [];
    assert Sum(lines) == LineTotal(lines[0]);
  }

  /** The reply to `status <orderId>`. */
  function StatusReply(orders: seq<Order>, id: string): (r: Reply)
    ensures r == InvalidOrderId <==> !IsObjectId(id)
    ensures IsObjectId(id) ==> r.OrderNotFound? || r.OrderStatus?
    ensures r.OrderNotFound? ==> r == OrderNotFound(id) && forall k :: 0 <= k < |orders| ==> orders[k].id != id
    // the first stored order with that id, shown by its display id
    ensures r.OrderStatus? ==>
              exists k :: 0 <= k < |orders| && orders[k].id == id && (forall j :: 0 <= j < k ==> orders[j].id != id) &&
                          r == OrderStatus(DisplayId(orders[k]), orders[k].status)
  {
    if !IsObjectId(id) then InvalidOrderId
    else match FindOrder(orders, id)
      case None => OrderNotFound(id)
      case Some(k) => OrderStatus(DisplayId(orders[k]), orders[k].status)
  }

  /** The reply to a message and the two stores the chat path writes. */
  datatype DeskChange = DeskChange(reply: Reply, orders: seq<Order>, lastOrderNumber: map<string, int>)

  /** What the `order` branch leaves behind, from the orders and shop
      counters before it: an unknown shop and unmatched tokens change
      nothing; a priced order moves the shop counter when it can and is
      stored with the sender's phone, unless that phone is empty and the
      create fails. Either way existing orders are kept and at most one is
      added, and only a placed order adds one. */
  function ChatOrderOutcome(
    shops: seq<Shop>, orders: seq<Order>, last: map<string, int>,
    shopPhone: string, rest: seq<string>, from: string, newId: string, shopCounterUp: bool): (r: DeskChange)
    ensures |orders| <= |r.orders| <= |orders| + 1 && r.orders[..|orders|] == orders
    ensures |r.orders| == |orders| + 1 <==> r.reply.OrderPlaced?
    ensures r.lastOrderNumber != last ==> shopCounterUp
  {
    match FindShopByPhone(shops, shopPhone)
    case None => DeskChange(ShopNotFound(shopPhone), orders, last)
    case Some(k) =>
      var shop := shops[k];
      match Evaluate(Available(shop.menu), rest)
      case Unresolved(tokens) => DeskChange(ItemsNotFound(tokens), orders, last)
      case Priced(lines, total) =>
        var last' := if shopCounterUp then Counter.Bump(last, shop.id) else last;
        var sender := SenderPhone(from);
        var phone := ChatOrderPhone(sender);
        if phone == "" then DeskChange(ServerError, orders, last')
        else
          var o := Order(newId, Some(shop.id),
                         if shopCounterUp then Some(Counter.Current(last, shop.id) + 1) else None,
                         None, "WhatsApp:" + sender, phone,
                         Some(AddressSnapshot("WhatsApp", "WhatsApp order from " + sender, phone, "")),
                         lines, total, "received");
          assert (orders + [o])[..|orders|] == orders;
          DeskChange(OrderPlaced(DisplayId(o), lines, total), orders + [o], last')
  }

  // ---------------------------------------------------------------- the desk

  class Desk {
    /** The shops, read but never changed here. */
    var shops: seq<Shop>
    /** `Shop.lastOrderNumber`, by shop id; a missing entry is the default 0. */
    var lastOrderNumber: map<string, int>
    /** The stored orders, oldest first. */
    var orders: seq<Order>
    /** The named counters of the Counter model. */
    const counter: Counter.CounterStore

    constructor (shops: seq<Shop>, counter: Counter.CounterStore)
      ensures this.shops == shops && this.counter == counter
      ensures lastOrderNumber == map[] && orders == []
    {
      this.shops := shops;
      this.counter := counter;
      lastOrderNumber := map[];
      orders := [];
    }

    /** `Shop.findByIdAndUpdate(id, { $inc: { lastOrderNumber: 1 } }, { new: true })`. */
    method BumpShop(id: string) returns (n: int)
      modifies this
      ensures lastOrderNumber == Counter.Bump(old(lastOrderNumber), id)
      ensures n == Counter.Current(old(lastOrderNumber), id) + 1
      ensures shops == old(shops) && orders == old(orders)
    {
      n := Counter.Current(lastOrderNumber, id) + 1;
      lastOrderNumber := lastOrderNumber[id := n];
    }

    /** The order number of the web path: the shop counter moves first
        (when the order names a shop), then the global counter's value
        replaces it; when `Counter.next` rejects, the shop counter moves a
        second time and that value is used. */
    method NumberWebOrder(shop: string, counterUp: bool) returns (orderNumber: Option<int>)
      modifies this, counter
      ensures shops == old(shops) && orders == old(orders)
      ensures counterUp ==>
        counter.seqs == Counter.Bump(old(counter.seqs), GlobalCounterName) &&
        orderNumber == Some(Counter.Current(old(counter.seqs), GlobalCounterName) + 1) &&
        lastOrderNumber == (if shop == "" then old(lastOrderNumber) else Counter.Bump(old(lastOrderNumber), shop))
      ensures !counterUp ==> counter.seqs == old(counter.seqs)
      ensures !counterUp && shop == "" ==> orderNumber == None && lastOrderNumber == old(lastOrderNumber)
      ensures !counterUp && shop != "" ==>
        lastOrderNumber == Counter.Bump(Counter.Bump(old(lastOrderNumber), shop), shop) &&
        orderNumber == Some(Counter.Current(old(lastOrderNumber), shop) + 2)
    {
      orderNumber := None;
      if shop != "" {
        var n := BumpShop(shop);
        orderNumber := Some(n);
      }
      var next := counter.Next(GlobalCounterName, counterUp);
      if next.Ok? {
        orderNumber := Some(next.value);
      } else if shop != "" {
        var n := BumpShop(shop);
        orderNumber := Some(n);
      }
    }

    /** `POST /api/orders`. `customer` is the id a valid customer token
        carries; `counterUp` is false when `Counter.next` rejects. The
        numbering is that of `NumberWebOrder`. */
    method PlaceWebOrder(req: WebOrderRequest, customer: Option<string>, newId: string, counterUp: bool)
      returns (r: Result<Order, WebOrderError>)
      modifies this, counter
      ensures shops == old(shops)
      ensures r.Err? <==> WebOrderRejection(old(shops), req).Some?
      ensures r.Err? ==> r.error == WebOrderRejection(old(shops), req).value
      ensures r.Err? ==> orders == old(orders) && lastOrderNumber == old(lastOrderNumber) && counter.seqs == old(counter.seqs)
      ensures r.Ok? ==>
        orders == old(orders) + [r.value] &&
        r.value == Order(newId, if req.shop == "" then None else Some(req.shop), r.value.orderNumber,
                         customer, req.customerName, NormalizePhoneInput(req.phone).value,
                         req.address, StoredLines(req.items), WebTotal(req.items), "received")
      ensures r.Ok? && counterUp ==>
        counter.seqs == Counter.Bump(old(counter.seqs), GlobalCounterName) &&
        r.value.orderNumber == Some(Counter.Current(old(counter.seqs), GlobalCounterName) + 1) &&
        lastOrderNumber == (if req.shop == "" then old(lastOrderNumber) else Counter.Bump(old(lastOrderNumber), req.shop))
      ensures r.Ok? && !counterUp ==> counter.seqs == old(counter.seqs)
      ensures r.Ok? && !counterUp && req.shop != "" ==>
        lastOrderNumber == Counter.Bump(Counter.Bump(old(lastOrderNumber), req.shop), req.shop) &&
        r.value.orderNumber == Some(Counter.Current(old(lastOrderNumber), req.shop) + 2)
      ensures r.Ok? && !counterUp && req.shop == "" ==>
        r.value.orderNumber == None && lastOrderNumber == old(lastOrderNumber)
    {
      var rejection := WebOrderRejection(shops, req);
      if rejection.Some? {
        return Err(rejection.value);
      }
      var phone, lines, total := NormalizePhoneInput(req.phone).value, StoredLines(req.items), WebTotal(req.items);
      var orderNumber := NumberWebOrder(req.shop, counterUp);
      var o := Order(newId, if req.shop == "" then None else Some(req.shop), orderNumber,
                     customer, req.customerName, phone, req.address, lines, total, "received");
      orders := orders + [o];
      r := Ok(o);
    }

    /** `PATCH /api/orders/:id/status`: any non-empty status is written. */
    method UpdateStatus(id: string, status: string) returns (r: Result<Order, StatusError>)
      modifies this
      ensures shops == old(shops) && lastOrderNumber == old(lastOrderNumber)
      ensures status == "" ==> r == Err(StatusRequired)
      ensures status != "" && !IsObjectId(id) ==> r == Err(InvalidRequest)
      ensures status != "" && IsObjectId(id) && FindOrder(old(orders), id).None? ==> r == Err(NotFound)
      ensures r.Err? ==> orders == old(orders)
      ensures r.Ok? ==>
        status != "" && FindOrder(old(orders), id).Some? &&
        var k := FindOrder(old(orders), id).value;
        r.value == old(orders)[k].(status := status) && orders == old(orders)[k := r.value]
    {
      if status == "" {
        return Err(StatusRequired);
      }
      if !IsObjectId(id) {
        return Err(InvalidRequest);
      }
      var k := FindOrder(orders, id);
      if k.None? {
        return Err(NotFound);
      }
      var o := orders[k.value].(status := status);
      orders := orders[k.value := o];
      r := Ok(o);
    }

    /** The `order` branch of the webhook. `shopCounterUp` is false when the
        shop counter update fails (the order is then stored without a
        number). */
    method PlaceChatOrder(shopPhone: string, rest: seq<string>, from: string, newId: string, shopCounterUp: bool)
      returns (reply: Reply)
      modifies this
      ensures shops == old(shops)
      ensures DeskChange(reply, orders, lastOrderNumber) ==
              ChatOrderOutcome(old(shops), old(orders), old(lastOrderNumber), shopPhone, rest, from, newId, shopCounterUp)
    {
      var k := FindShopByPhone(shops, shopPhone);
      if k.None? {
        return ShopNotFound(shopPhone);
      }
      var shop := shops[k.value];
      var outcome := PriceTokens(Available(shop.menu), rest);
      if outcome.Unresolved? {
        return ItemsNotFound(outcome.tokens);
      }
      var lines, total := outcome.lines, outcome.total;
      var orderNumber: Option<int> := None;
      if shopCounterUp {
        var n := BumpShop(shop.id);
        orderNumber := Some(n);
      }
      var sender := SenderPhone(from);
      var phone := ChatOrderPhone(sender);
      if phone == "" {
        // the order schema requires a phone: `Order.create` rejects
        return ServerError;
      }
      var o := Order(newId, Some(shop.id), orderNumber, None, "WhatsApp:" + sender, phone,
                     Some(AddressSnapshot("WhatsApp", "WhatsApp order from " + sender, phone, "")),
                     lines, total, "received");
      orders := orders + [o];
      reply := OrderPlaced(DisplayId(o), lines, total);
    }

    /** `POST /webhook/whatsapp`: the reply to one incoming message. */
    method HandleMessage(from: string, body: string, newId: string, shopCounterUp: bool) returns (reply: Reply)
      modifies this
      ensures shops == old(shops)
      ensures !Parse(body).OrderCmd? ==> orders == old(orders) && lastOrderNumber == old(lastOrderNumber)
      ensures Parse(body).MenuCmd? ==> reply == MenuReply(old(shops), Parse(body).shopPhone)
      ensures Parse(body).StatusCmd? ==> reply == StatusReply(old(orders), Parse(body).orderId)
      ensures Parse(body).HelpCmd? ==> reply == Help
      ensures Parse(body).OrderCmd? ==>
                DeskChange(reply, orders, lastOrderNumber) ==
                ChatOrderOutcome(old(shops), old(orders), old(lastOrderNumber), Parse(body).shopPhone, Parse(body).rest,
                                 from, newId, shopCounterUp)
    {
      var c := Parse(body);
      match c
      case MenuCmd(p) => reply := MenuReply(shops, p);
      case OrderCmd(p, rest) => reply := PlaceChatOrder(p, rest, from, newId, shopCounterUp);
      case StatusCmd(id) => reply := StatusReply(orders, id);
      case HelpCmd => reply := Help;
    }
  }
}
