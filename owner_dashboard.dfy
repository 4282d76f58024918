/** The decisions the shop owner's dashboard
    (services/owner-frontend/src/pages/OwnerDashboard.jsx) makes before it
    calls the backend: how an order is labelled, which status button is
    live, whether an item form may be submitted and what it sends, the
    variant rows of the item form, and the availability toggle. */
module OwnerDashboard {
  import opened Wrappers
  import opened Text
  import OrderDesk

  // ---------------------------------------------------------------- order label

  /** `displayOrderLabel`: any present order number, zero included, is shown
      as `#` and six digits; without one, the first eight characters of the id. */
  function DisplayOrderLabel(orderNumber: Option<int>, id: string): (l: string)
    ensures orderNumber.Some? ==> |l| >= 7 && l[0] == '#' && EndsWith(l, IntToString(orderNumber.value))
    ensures orderNumber.None? ==> StartsWith(id, l) && |l| == if |id| <= 8 then |id| else 8
  {
    match orderNumber
    case Some(n) => "#" + PadStart(IntToString(n), 6, '0')
    case None => if |id| <= 8 then id else id[..8]
  }

  /** A non-negative order number reads back from its label, so distinct
      numbers get distinct labels; without a number the label is a prefix
      of the id of at most eight characters. */
  lemma DisplayOrderLabelReadsBack(orderNumber: Option<int>, id: string)
    requires orderNumber.Some? ==> orderNumber.value >= 0
    ensures var l := DisplayOrderLabel(orderNumber, id);
            (orderNumber.Some? ==> |l| >= 7 && l[0] == '#' && AllDigits(l[1..]) && DecimalValue(l[1..]) == orderNumber.value) &&
            (orderNumber.None? ==> |l| <= 8 && StartsWith(id, l))
  {
    if orderNumber.Some? {
      var n: nat := orderNumber.value;
      PaddedNumberRoundTrip(n, 6);
      assert DisplayOrderLabel(orderNumber, id)[1..] == PadStart(NatToString(n), 6, '0');
    }
  }

  /** For a positive number the dashboard label is the id the chat replies
      show; for order number 0 the dashboard shows `#000000` where the
      replies show the raw id. */
  lemma DisplayOrderLabelMatchesReplies(o: OrderDesk.Order)
    requires o.orderNumber.Some? && o.orderNumber.value >= 0
    ensures o.orderNumber.value >= 1 ==> DisplayOrderLabel(o.orderNumber, o.id) == OrderDesk.DisplayId(o)
    ensures o.orderNumber.value == 0 ==> DisplayOrderLabel(o.orderNumber, o.id) == "#000000" && OrderDesk.DisplayId(o) == o.id
  {
    if o.orderNumber.value == 0 {
      assert NatToString(0) == "0";
      assert Repeat('0', 5) == "00000";
    }
  }

  // ---------------------------------------------------------------- status buttons

  /** The four buttons of an order card. */
  datatype StatusButton = Accept | Pack | SendOut | Deliver

  /** The status a button sets. */
  function Target(b: StatusButton): string
  {
    match b
    case Accept => "accepted"
    case Pack => "packed"
    case SendOut => "out-for-delivery"
    case Deliver => "delivered"
  }

  /** The only status, lower-cased, in which a button is enabled. */
  function EnabledIn(b: StatusButton): string
  {
    match b
    case Accept => "received"
    case Pack => "accepted"
    case SendOut => "packed"
    case Deliver => "out-for-delivery"
  }

  /** `disabled={status !== ...}` with `status = (o.status || "").toLowerCase()`. */
  function Enabled(status: string, b: StatusButton): (e: bool)
    ensures e ==> Lower(status) != "delivered" && Lower(status) != Target(b)
  {
    Lower(status) == EnabledIn(b)
  }

  /** The order life cycle the buttons walk through. */
  const Chain: seq<string> := ["received", "accepted", "packed", "out-for-delivery", "delivered"]

  /** A button is enabled exactly when the order is at some step of the
      chain and the button moves it to the next step; so at most one button
      is enabled and none once the order is delivered. */
  lemma EnabledFollowsChain(status: string, b: StatusButton)
    ensures Enabled(status, b) <==> exists k :: 0 <= k < 4 && Lower(status) == Chain[k] && Target(b) == Chain[k + 1]
  {
    var k := match b case Accept => 0 case Pack => 1 case SendOut => 2 case Deliver => 3;
    assert EnabledIn(b) == Chain[k] && Target(b) == Chain[k + 1];
    if exists j :: 0 <= j < 4 && Lower(status) == Chain[j] && Target(b) == Chain[j + 1] {
      var j :| 0 <= j < 4 && Lower(status) == Chain[j] && Target(b) == Chain[j + 1];
      assert j == k by {
        assert Chain[1] != Chain[2] && Chain[1] != Chain[3] && Chain[1] != Chain[4];
        assert Chain[2] != Chain[3] && Chain[2] != Chain[4] && Chain[3] != Chain[4];
      }
    }
  }

  lemma AtMostOneEnabled(status: string, b: StatusButton, c: StatusButton)
    requires Enabled(status, b) && Enabled(status, c)
    ensures b == c
  {
    assert EnabledIn(b) == EnabledIn(c);
    assert "received" != "accepted" && "received" != "packed" && "received" != "out-for-delivery";
    assert "accepted" != "packed" && "accepted" != "out-for-delivery" && "packed" != "out-for-delivery";
  }

  // ---------------------------------------------------------------- item form

  /** A variant row of the item form. `price` is `Number(v.price || 0)`,
      `None` when that is not a number (a blank field reads as 0);
      `available` is `None` when the field is not a boolean. */
  datatype VariantRow = VariantRow(id: string, caption: string, price: Option<int>, available: Option<bool>)

  /** A partial row merged into a row with `{ ...row, ...patch }`. */
  datatype VariantPatch = VariantPatch(
    id: Option<string>, caption: Option<string>, price: Option<Option<int>>, available: Option<bool>)

  /** The row `addVariantRow` appends: `{ id: "", label: "", price: "", available: true }`. */
  const BlankRow := VariantRow("", "", Some(0), Some(true))

  function Merge(row: VariantRow, patch: VariantPatch): (r: VariantRow)
    ensures patch.id.Some? ==> r.id == patch.id.value
    ensures patch.id.None? ==> r.id == row.id
    ensures patch.caption.Some? ==> r.caption == patch.caption.value
    ensures patch.caption.None? ==> r.caption == row.caption
    ensures patch.price.Some? ==> r.price == patch.price.value
    ensures patch.price.None? ==> r.price == row.price
    ensures patch.available.Some? ==> r.available == patch.available
    ensures patch.available.None? ==> r.available == row.available
  {
    VariantRow(
      patch.id.GetOr(row.id),
      patch.caption.GetOr(row.caption),
      patch.price.GetOr(row.price),
      if patch.available.Some? then patch.available else row.available)
  }

  /** Applying the same patch twice is applying it once. */
  lemma MergeIdempotent(row: VariantRow, patch: VariantPatch)
    ensures Merge(Merge(row, patch), patch) == Merge(row, patch)
  {
  }

  /** `vs.splice(index, 1)`: the row at `index` goes and the later rows move
      up one place; an index past the end changes nothing. */
  function WithoutRow(vs: seq<VariantRow>, index: nat): (r: seq<VariantRow>)
    ensures index < |vs| ==> |r| == |vs| - 1
    ensures index >= |vs| ==> r == vs
    ensures forall j :: 0 <= j < index && j < |r| ==> r[j] == vs[j]
    ensures forall j :: index <= j < |r| ==> r[j] == vs[j + 1]
  {
    if index < |vs| then vs[..index] + vs[index + 1..] else vs
  }

  /** Removing the row just added gives back the rows before the add. */
  lemma RemoveUndoesAdd(vs: seq<VariantRow>)
    ensures WithoutRow(vs + [BlankRow], |vs|) == vs
  {
    assert (vs + [BlankRow])[..|vs|] == vs;
  }

  /** The add-item form (`itemForm`). Only the variant rows change here. */
  class ItemForm {
    var name: string
    /** `Number(itemForm.price || 0)`, `None` when it is not a number. */
    var price: Option<int>
    var variants: seq<VariantRow>

    constructor ()
      ensures name == "" && price == Some(0) && variants == []
    {
      name := "";
      price := Some(0);
      variants := [];
    }

    /** `hasVariantsFor(itemForm)`. */
    predicate HasVariants()
      reads this
    {
      |variants| > 0
    }

    /** `addVariantRow`: one blank, available row at the end. */
    method AddVariantRow()
      modifies this
      ensures variants == old(variants) + [BlankRow]
      ensures name == old(name) && price == old(price)
    {
      variants := variants + [BlankRow];
    }

    /** `updateVariantAt`: the patch is merged into that row only. The
        dashboard only passes the index of a row it is showing. */
    method UpdateVariantAt(index: nat, patch: VariantPatch)
      requires index < |variants|
      modifies this
      ensures |variants| == |old(variants)|
      ensures variants[index] == Merge(old(variants)[index], patch)
      ensures forall j :: 0 <= j < |variants| && j != index ==> variants[j] == old(variants)[j]
      ensures name == old(name) && price == old(price)
    {
      var vs := variants;
      vs := vs[index := Merge(vs[index], patch)];
      variants := vs;
    }

    /** `removeVariantAt`: a copy of the rows with that row spliced out. */
    method RemoveVariantAt(index: nat)
      modifies this
      ensures variants == WithoutRow(old(variants), index)
      ensures name == old(name) && price == old(price)
    {
      var vs := variants;
      if index < |vs| {
        vs := vs[..index] + vs[index + 1..];
      }
      variants := vs;
    }
  }

  // ---------------------------------------------------------------- submitItem

  datatype ItemError =
    | NoShop                                       // "Select or create a shop first"
    | NameRequired                                 // "Item name required"
    | LabelRequired(position: nat)                 // "Variant <position>: label required"
    | VariantPriceRequired(position: nat, caption: string)  // "Variant \"<label>\" must have price > 0"
    | BasePriceRequired                            // "Base price required (when no variants)"

  predicate LabelOk(v: VariantRow) { Trim(v.caption) != "" }

  /** `!isNaN(p) && p > 0`. */
  predicate PriceOk(p: Option<int>) { p.Some? && p.value > 0 }

  predicate RowOk(v: VariantRow) { LabelOk(v) && PriceOk(v.price) }

  /** A form `submitItem` sends: a non-blank name, and either variants that
      all have a label and a positive price or, without variants, a positive
      base price. */
  predicate Submittable(name: string, price: Option<int>, variants: seq<VariantRow>)
  {
    Trim(name) != "" &&
    (if |variants| > 0 then forall i :: 0 <= i < |variants| ==> RowOk(variants[i]) else PriceOk(price))
  }

  /** The checks at the head of `submitItem`, in order; the first failure is
      reported (a variant by its 1-based position) and nothing is sent. */
  method ValidateItem(shopSelected: bool, name: string, price: Option<int>, variants: seq<VariantRow>)
    returns (r: Option<ItemError>)
    ensures r.None? <==> shopSelected && Submittable(name, price, variants)
    ensures r == Some(NoShop) <==> !shopSelected
    ensures r == Some(NameRequired) <==> shopSelected && Trim(name) == ""
    // past the first two checks only the rows or the base price can fail
    ensures r.Some? && !r.value.NoShop? && !r.value.NameRequired? ==> shopSelected && Trim(name) != ""
    ensures r.Some? && r.value.LabelRequired? ==>
              var n := r.value.position;
              1 <= n <= |variants| && !LabelOk(variants[n - 1]) &&
              forall j :: 0 <= j < n - 1 ==> RowOk(variants[j])
    ensures r.Some? && r.value.VariantPriceRequired? ==>
              var n := r.value.position;
              1 <= n <= |variants| && LabelOk(variants[n - 1]) && !PriceOk(variants[n - 1].price) &&
              r.value.caption == variants[n - 1].caption &&
              forall j :: 0 <= j < n - 1 ==> RowOk(variants[j])
    ensures r == Some(BasePriceRequired) ==> variants == [] && !PriceOk(price)
  {
    if !shopSelected {
      return Some(NoShop);
    }
    if Trim(name) == "" {
      return Some(NameRequired);
    }
    if |variants| > 0 {
      for i := 0 to |variants|
        invariant forall j :: 0 <= j < i ==> RowOk(variants[j])
      {
        var v := variants[i];
        if v.caption == "" || Trim(v.caption) == "" {
          return Some(LabelRequired(i + 1));
        }
        if !PriceOk(v.price) {
          // the message's `'#' + (i + 1)` fallback is unreachable: the label was just checked
          return Some(VariantPriceRequired(i + 1, v.caption));
        }
      }
    } else {
      if !PriceOk(price) {
        return Some(BasePriceRequired);
      }
    }
    r := None;
  }

  datatype VariantPayload = VariantPayload(id: string, caption: string, price: int, available: bool)

  datatype ItemPayload = ItemPayload(name: string, price: int, variants: seq<VariantPayload>)

  /** The `variants.map((v, idx) => ...)` callback. */
  function VariantPayloadOf(v: VariantRow, idx: nat): VariantPayload
    requires PriceOk(v.price)
  {
    VariantPayload(
      if v.id != "" then v.id else NatToString(idx + 1),
      if v.caption != "" then v.caption else if v.id != "" then v.id else "Option " + NatToString(idx + 1),
      v.price.value,
      v.available.GetOr(true))
  }

  /** The payload `submitItem` sends once the checks pass. */
  function BuildPayload(name: string, price: Option<int>, variants: seq<VariantRow>): (p: ItemPayload)
    requires Submittable(name, price, variants)
    ensures p.name == Trim(name) && p.name != ""
    ensures |variants| > 0 ==> p.price == 0
    ensures |variants| == 0 ==> p.price == price.value > 0
    ensures |p.variants| == |variants|
    ensures forall k :: 0 <= k < |variants| ==>
              var q := p.variants[k];
              q.id != "" && q.caption != "" && q.price == variants[k].price.value > 0 &&
              (variants[k].id != "" ==> q.id == variants[k].id) &&
              (variants[k].id == "" ==> q.id == NatToString(k + 1)) &&
              q.caption == variants[k].caption &&
              q.available == variants[k].available.GetOr(true)
  {
    ItemPayload(
      Trim(name),
      if |variants| > 0 then 0 else price.value,
      seq(|variants|, k requires 0 <= k < |variants| => VariantPayloadOf(variants[k], k)))
  }

  /** Rows left without an id get their 1-based position as id, so two such
      rows never share an id. */
  lemma DefaultIdsDistinct(name: string, price: Option<int>, variants: seq<VariantRow>, i: nat, j: nat)
    requires Submittable(name, price, variants)
    requires i < |variants| && j < |variants| && i != j
    requires variants[i].id == "" && variants[j].id == ""
    ensures BuildPayload(name, price, variants).variants[i].id != BuildPayload(name, price, variants).variants[j].id
  {
    var p := BuildPayload(name, price, variants);
    assert p.variants[i] == VariantPayloadOf(variants[i], i);
    assert p.variants[j] == VariantPayloadOf(variants[j], j);
    PositionIdsDiffer(i, j);
  }

  lemma PositionIdsDiffer(i: nat, j: nat)
    requires i != j
    ensures NatToString(i + 1) != NatToString(j + 1)
  {
    NatToStringRoundTrip(i + 1);
    NatToStringRoundTrip(j + 1);
  }

  // ---------------------------------------------------------------- availability

  /** A menu entry as the dashboard holds it: `_id`, `id` (either may be
      empty) and the availability flag (a missing flag reads as false). */
  datatype MenuEntry = MenuEntry(mongoId: string, id: string, available: bool)

  /** `toggleAvailability` takes an id or the entry itself. */
  datatype ToggleTarget = ById(key: string) | Given(entry: MenuEntry)

  /** `PATCH /api/shops/:shop/items/:itemId` with `{ available }`. */
  datatype AvailabilityPatch = AvailabilityPatch(itemId: string, available: bool)

  datatype ToggleError = NoId   // "Toggle failed: no id"

  predicate Matches(m: MenuEntry, key: string) { m.mongoId == key || m.id == key }

  /** `menu.find(m => m._id === key || m.id === key)`, as an index. */
  function FindEntry(menu: seq<MenuEntry>, key: string): (r: Option<nat>)
    ensures r.Some? ==> r.value < |menu| && Matches(menu[r.value], key) &&
                        forall j :: 0 <= j < r.value ==> !Matches(menu[j], key)
    ensures r.None? ==> forall j :: 0 <= j < |menu| ==> !Matches(menu[j], key)
  {
    if menu == [] then None
    else if Matches(menu[0], key) then Some(0)
    else match FindEntry(menu[1..], key)
      case None => None
      case Some(k) => Some(k + 1)
  }

  /** The patch for a found entry: refused exactly when the entry has no
      id; otherwise it names the `_id` when there is one, else the `id`,
      and asks for the opposite of the entry's flag. */
  function PatchFor(e: MenuEntry): (r: Result<AvailabilityPatch, ToggleError>)
    ensures r.Err? <==> e.mongoId == "" && e.id == ""
    ensures r.Ok? ==> r.value.available == !e.available
    ensures r.Ok? && e.mongoId != "" ==> r.value.itemId == e.mongoId
    ensures r.Ok? && e.mongoId == "" ==> r.value.itemId == e.id
  {
    if e.mongoId != "" then Ok(AvailabilityPatch(e.mongoId, !e.available))
    else if e.id != "" then Ok(AvailabilityPatch(e.id, !e.available))
    else Err(NoId)
  }

  /** The request `toggleAvailability` sends: the entry's `_id`, else its
      `id`, with the negation of its current flag; no request when no entry
      is found or it has no id. */
  function Toggle(menu: seq<MenuEntry>, target: ToggleTarget): (r: Result<AvailabilityPatch, ToggleError>)
    ensures target.Given? ==> r == PatchFor(target.entry)
    ensures target.ById? && FindEntry(menu, target.key).Some? ==> r == PatchFor(menu[FindEntry(menu, target.key).value])
    ensures target.ById? && FindEntry(menu, target.key).None? ==> r == Err(NoId)
  {
    var item := match target
      case Given(e) => Some(e)
      case ById(key) => match FindEntry(menu, key) case Some(k) => Some(menu[k]) case None => None;
    match item
    case None => Err(NoId)
    case Some(e) => PatchFor(e)
  }

  /** The menu after the backend applied the patch to entry `k`. */
  function SetAvailable(menu: seq<MenuEntry>, k: nat, available: bool): (r: seq<MenuEntry>)
    requires k < |menu|
    ensures |r| == |menu|
    ensures r[k].available == available && r[k].mongoId == menu[k].mongoId && r[k].id == menu[k].id
    ensures forall j :: 0 <= j < |menu| && j != k ==> r[j] == menu[j]
  {
    menu[k := menu[k].(available := available)]
  }

  /** Toggling an entry, reloading the menu and toggling it again asks for
      the availability it had at first. */
  lemma {:induction false} ToggleTwiceRestores(menu: seq<MenuEntry>, key: string)
    requires Toggle(menu, ById(key)).Ok?
    ensures var k := FindEntry(menu, key).value;
            var first := Toggle(menu, ById(key)).value;
            var menu' := SetAvailable(menu, k, first.available);
            Toggle(menu', ById(key)).Ok? && Toggle(menu', ById(key)).value.available == menu[k].available
  {
    var k := FindEntry(menu, key).value;
    var first := Toggle(menu, ById(key)).value;
    var menu' := SetAvailable(menu, k, first.available);
    FindEntryIgnoresAvailability(menu, key, k, first.available);
  }

  lemma {:induction false} FindEntryIgnoresAvailability(menu: seq<MenuEntry>, key: string, k: nat, available: bool)
    requires k < |menu|
    ensures FindEntry(SetAvailable(menu, k, available), key) == FindEntry(menu, key)
  {
    var menu' := SetAvailable(menu, k, available);
    if menu != [] && !Matches(menu[0], key) {
      if k == 0 {
        assert menu'[1..] == menu[1..];
      } else {
        assert menu'[1..] == SetAvailable(menu[1..], k - 1, available);
        FindEntryIgnoresAvailability(menu[1..], key, k - 1, available);
      }
    }
  }
}
