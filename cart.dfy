/** The checkout panel of the customer front end
    (services/customer-frontend/src/components/Cart.jsx): which saved
    address is selected, whether the order can be placed, and how an
    address's phone is shown. */
module Cart {
  import opened Wrappers
  import opened Text
  import opened Phones

  /** A saved address as the cart reads it: the current `isDefault` flag,
      the older `default` flag, and the stored phone. */
  datatype CartAddress = CartAddress(id: string, isDefault: bool, legacyDefault: bool, phone: string)

  /** `a.isDefault || a.default`. */
  predicate Flagged(a: CartAddress) { a.isDefault || a.legacyDefault }

  /** `findDefaultIndex`: the first flagged address, else the first address,
      else -1 for an empty list. */
  function FindDefaultIndex(list: seq<CartAddress>): (r: int)
    ensures r == -1 <==> list == []
    ensures list != [] ==> 0 <= r < |list|
    ensures list != [] && Flagged(list[r]) ==> forall j :: 0 <= j < r ==> !Flagged(list[j])
    ensures list != [] && !Flagged(list[r]) ==> r == 0 && forall j :: 0 <= j < |list| ==> !Flagged(list[j])
  {
    match FirstFlagged(list)
    case Some(k) => k
    case None => if |list| > 0 then 0 else -1
  }

  /** `list.findIndex(a => a.isDefault || a.default)`, `None` for -1. */
  function FirstFlagged(list: seq<CartAddress>): (r: Option<nat>)
    ensures r.Some? ==> r.value < |list| && Flagged(list[r.value]) && forall j :: 0 <= j < r.value ==> !Flagged(list[j])
    ensures r.None? ==> forall j :: 0 <= j < |list| ==> !Flagged(list[j])
  {
    if list == [] then None
    else if Flagged(list[0]) then Some(0)
    else match FirstFlagged(list[1..])
      case None => None
      case Some(k) => Some(k + 1)
  }

  /** The selection the sync effect settles on: -1 for no addresses, the
      current selection while it is in range, else the default's index. */
  function Synced(addresses: seq<CartAddress>, selectedIdx: int): (r: int)
    ensures r == -1 <==> addresses == []
    ensures addresses != [] ==> 0 <= r < |addresses|
    ensures 0 <= selectedIdx < |addresses| ==> r == selectedIdx
    ensures addresses != [] && !(0 <= selectedIdx < |addresses|) ==> r == FindDefaultIndex(addresses)
  {
    if addresses == [] then -1
    else if 0 <= selectedIdx < |addresses| then selectedIdx
    else FindDefaultIndex(addresses)
  }

  /** The effect runs again when it changes the selection; the second run
      changes nothing, so the selection settles after one update. */
  lemma SyncSettles(addresses: seq<CartAddress>, selectedIdx: int)
    ensures Synced(addresses, Synced(addresses, selectedIdx)) == Synced(addresses, selectedIdx)
  {
  }

  /** `canPlace`. */
  predicate CanPlace(itemCount: nat, selectedIdx: int)
  {
    itemCount > 0 && selectedIdx >= 0
  }

  /** Once the selection is in sync, the order can be placed exactly when
      the cart has items and the customer has at least one address. */
  lemma CanPlaceAfterSync(itemCount: nat, addresses: seq<CartAddress>, selectedIdx: int)
    ensures CanPlace(itemCount, Synced(addresses, selectedIdx)) <==> itemCount > 0 && addresses != []
  {
  }

  /** `selectedAddress`: the selected address, or null when nothing valid
      is selected. */
  function SelectedAddress(addresses: seq<CartAddress>, selectedIdx: int): (r: Option<CartAddress>)
    ensures r.Some? <==> 0 <= selectedIdx < |addresses|
    ensures r.Some? ==> r.value == addresses[selectedIdx]
  {
    if 0 <= selectedIdx < |addresses| then Some(addresses[selectedIdx]) else None
  }

  /** The Delete button is disabled for a flagged address. */
  predicate DeleteEnabled(a: CartAddress) { !Flagged(a) }

  /** The selection state of the cart (`selectedIdx`). */
  class CartSelection {
    var selectedIdx: int

    /** `useState(findDefaultIndex(addresses))`. */
    constructor (addresses: seq<CartAddress>)
      ensures selectedIdx == FindDefaultIndex(addresses)
    {
      selectedIdx := FindDefaultIndex(addresses);
    }

    /** One run of the sync effect. */
    method Sync(addresses: seq<CartAddress>)
      modifies this
      ensures selectedIdx == Synced(addresses, old(selectedIdx))
    {
      if |addresses| == 0 {
        selectedIdx := -1;
        return;
      }
      if selectedIdx >= 0 && selectedIdx < |addresses| {
        return;
      }
      selectedIdx := FindDefaultIndex(addresses);
    }

    /** The radio button of address `idx`. */
    method Select(idx: int)
      modifies this
      ensures selectedIdx == idx
    {
      selectedIdx := idx;
    }
  }

  // ---------------------------------------------------------------- phone

  /** `phoneForUI`: empty without digits, `+91` and the digits for ten
      digits, the value as given when it starts with `+`, else `+` and the
      digits. */
  function PhoneForUI(p: string): (r: string)
    ensures Digits(p) == [] ==> r == ""
    ensures |Digits(p)| == 10 ==> r == "+91" + Digits(p)
    ensures Digits(p) != [] && |Digits(p)| != 10 ==> StartsWith(r, "+")
    ensures Digits(p) != [] && |Digits(p)| != 10 && StartsWith(p, "+") ==> r == p
    ensures Digits(p) != [] && |Digits(p)| != 10 && !StartsWith(p, "+") ==> r == "+" + Digits(p)
  {
    var digits := Digits(p);
    if digits == [] then ""
    else if |digits| == 10 then "+91" + digits
    else if StartsWith(p, "+") then p
    else "+" + digits
  }

  /** Showing a shown phone again changes nothing. */
  lemma PhoneForUIIdempotent(p: string)
    ensures PhoneForUI(PhoneForUI(p)) == PhoneForUI(p)
  {
    var d := Digits(p);
    if d != [] && |d| == 10 {
      DigitsOfPlus91(d);
    } else if d != [] && !StartsWith(p, "+") {
      DigitsOfPlus(d);
    }
  }

  /** A phone stored by the address routes is shown exactly as stored. */
  lemma PhoneForUIShowsStoredPhone(phone: string)
    ensures PhoneForUI(AddressPhone(phone)) == AddressPhone(phone)
  {
    var stored := AddressPhone(phone);
    if stored != "" {
      var d := Digits(phone);
      if |d| == 10 {
        DigitsOfPlus91(d);
      } else {
        DigitsOfPlus(d);
      }
    }
  }
}
