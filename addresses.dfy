/** A customer's saved addresses and the routes that change them in
    services/backend/server.js (`POST`, `PATCH` and `DELETE` under
    `/api/customers/addresses`). The routes keep one address flagged
    default: the first address added, the one an edit sets, or the one a
    deletion promotes. */
module Addresses {
  import opened Wrappers
  import opened Text
  import opened Phones

  /** A saved address; `tag` is its label (Home, Work, ...). */
  datatype Address = Address(
    id: string,
    tag: string,
    name: string,
    address: string,
    phone: string,
    pincode: string,
    isDefault: bool)

  /** The body of the add route; empty strings are missing fields. */
  datatype NewAddress = NewAddress(tag: string, name: string, address: string, phone: string, pincode: string)

  /** The body of the edit route; `None` is a field the body leaves out. */
  datatype AddressEdit = AddressEdit(
    tag: Option<string>,
    name: Option<string>,
    address: Option<string>,
    phone: Option<string>,
    pincode: Option<string>,
    isDefault: Option<bool>)

  /** `SaveFailed` is the 500 a rejected `cust.save()` answers. */
  datatype AddressError = FieldsRequired | AddressNotFound | LastDefault | SaveFailed

  /** The schema's required fields: `address` and `pincode` must be
      non-empty strings for the customer document to save. */
  predicate Storable(a: Address)
  {
    a.address != "" && a.pincode != ""
  }

  // ---------------------------------------------------------------- the default flag

  /** Address `k` is the one and only default. */
  predicate OnlyDefault(s: seq<Address>, k: nat)
  {
    k < |s| && s[k].isDefault && forall j :: 0 <= j < |s| && j != k ==> !s[j].isDefault
  }

  /** The invariant the routes keep: a non-empty list has exactly one default. */
  ghost predicate OneDefault(s: seq<Address>)
  {
    s == [] || exists k :: OnlyDefault(s, k)
  }

  predicate UniqueIds(s: seq<Address>)
  {
    forall i, j :: 0 <= i < j < |s| ==> s[i].id != s[j].id
  }

  /** `cust.addresses.id(addrId)`. */
  function FindAddress(s: seq<Address>, id: string): (r: Option<nat>)
    ensures r.Some? ==> r.value < |s| && s[r.value].id == id
    ensures r.None? ==> forall k :: 0 <= k < |s| ==> s[k].id != id
  {
    if s == [] then None
    else if s[0].id == id then Some(0)
    else match FindAddress(s[1..], id)
      case None => None
      case Some(k) => Some(k + 1)
  }

  // ---------------------------------------------------------------- add

  /** The address the add route pushes. */
  function NewEntry(s: seq<Address>, id: string, a: NewAddress): Address
  {
    Address(id, a.tag, a.name, a.address, AddressPhone(a.phone), Trim(a.pincode), s == [])
  }

  /** The list after a successful add (clearing the other flags changes
      nothing, since only the first address is added as default). */
  function Added(s: seq<Address>, id: string, a: NewAddress): seq<Address>
  {
    s + [NewEntry(s, id, a)]
  }

  /** The first address becomes the default; a later one does not, and the
      existing default stays the only one. */
  lemma AddKeepsOneDefault(s: seq<Address>, id: string, a: NewAddress)
    requires OneDefault(s)
    ensures OneDefault(Added(s, id, a))
    ensures s == [] ==> OnlyDefault(Added(s, id, a), 0)
    ensures s != [] ==> !Added(s, id, a)[|s|].isDefault
  {
    var t := Added(s, id, a);
    if s != [] {
      var k :| OnlyDefault(s, k);
      assert OnlyDefault(t, k);
    } else {
      assert OnlyDefault(t, 0);
    }
  }

  // ---------------------------------------------------------------- edit

  /** Every address's flag cleared, then address `k`'s set. */
  function WithOnlyDefault(s: seq<Address>, k: nat): (t: seq<Address>)
    requires k < |s|
    ensures |t| == |s| && OnlyDefault(t, k)
    ensures forall j :: 0 <= j < |s| ==> t[j] == s[j].(isDefault := j == k)
  {
    seq(|s|, j requires 0 <= j < |s| => s[j].(isDefault := j == k))
  }

  /** The fields the edit route writes: each field the body gives; the
      pincode as given (not trimmed); the phone through the address rule. */
  function EditFields(a: Address, e: AddressEdit): Address
  {
    a.(tag := e.tag.GetOr(a.tag),
       name := e.name.GetOr(a.name),
       address := e.address.GetOr(a.address),
       pincode := e.pincode.GetOr(a.pincode),
       phone := if e.phone.Some? then AddressPhone(e.phone.value) else a.phone)
  }

  /** The list after editing address `k`: only `isDefault === true` moves
      the default flag. */
  function Edited(s: seq<Address>, k: nat, e: AddressEdit): seq<Address>
    requires k < |s|
  {
    var t := s[k := EditFields(s[k], e)];
    if e.isDefault == Some(true) then WithOnlyDefault(t, k) else t
  }

  /** Setting `isDefault` makes the edited address the only default; any
      other edit leaves the flags alone. */
  lemma EditKeepsOneDefault(s: seq<Address>, k: nat, e: AddressEdit)
    requires k < |s| && OneDefault(s)
    ensures OneDefault(Edited(s, k, e))
    ensures e.isDefault == Some(true) ==> OnlyDefault(Edited(s, k, e), k)
    ensures e.isDefault != Some(true) ==>
              forall j :: 0 <= j < |s| ==> Edited(s, k, e)[j].isDefault == s[j].isDefault
  {
    var t := Edited(s, k, e);
    if e.isDefault != Some(true) {
      var d: nat :| OnlyDefault(s, d);
      assert OnlyDefault(t, d);
    }
  }

  /** An edit that saves keeps every id and leaves every address storable. */
  lemma EditedKeepsIdsAndStorable(s: seq<Address>, k: nat, e: AddressEdit)
    requires k < |s| && UniqueIds(s) && forall j :: 0 <= j < |s| ==> Storable(s[j])
    requires Storable(EditFields(s[k], e))
    ensures |Edited(s, k, e)| == |s|
    ensures forall j :: 0 <= j < |s| ==> Edited(s, k, e)[j].id == s[j].id
    ensures UniqueIds(Edited(s, k, e))
    ensures forall j :: 0 <= j < |s| ==> Storable(Edited(s, k, e)[j])
  {
    var t := Edited(s, k, e);
    assert forall j :: 0 <= j < |s| ==> t[j].id == s[j].id && t[j].address == s[k := EditFields(s[k], e)][j].address &&
                                        t[j].pincode == s[k := EditFields(s[k], e)][j].pincode;
  }

  // ---------------------------------------------------------------- delete

  /** `cust.addresses.find(a => a._id !== addr._id)`: the first other address. */
  function FirstOther(s: seq<Address>, k: nat): (r: Option<nat>)
    requires k < |s|
    ensures r.Some? ==> r.value < |s| && s[r.value].id != s[k].id
    ensures r.Some? ==> forall j :: 0 <= j < r.value ==> s[j].id == s[k].id
    ensures r.None? ==> forall j :: 0 <= j < |s| ==> s[j].id == s[k].id
  {
    FirstOtherFrom(s, k, 0)
  }

  function FirstOtherFrom(s: seq<Address>, k: nat, from: nat): (r: Option<nat>)
    requires k < |s| && from <= |s|
    ensures r.Some? ==> from <= r.value < |s| && s[r.value].id != s[k].id
    ensures r.Some? ==> forall j :: from <= j < r.value ==> s[j].id == s[k].id
    ensures r.None? ==> forall j :: from <= j < |s| ==> s[j].id == s[k].id
    decreases |s| - from
  {
    if from == |s| then None
    else if s[from].id != s[k].id then Some(from)
    else FirstOtherFrom(s, k, from + 1)
  }

  /** `cust.addresses.some(a => a._id !== addr._id && a.isDefault)`. */
  predicate OtherDefault(s: seq<Address>, k: nat)
    requires k < |s|
  {
    exists j :: 0 <= j < |s| && s[j].id != s[k].id && s[j].isDefault
  }

  function Removed(s: seq<Address>, k: nat): (t: seq<Address>)
    requires k < |s|
    ensures |t| == |s| - 1
  {
    s[..k] + s[k + 1..]
  }

  /** The delete route on address `k`: a default with no other address is
      refused; a default whose list has no other default first promotes the
      first other address. */
  function AfterDelete(s: seq<Address>, k: nat): Result<seq<Address>, AddressError>
    requires k < |s|
  {
    if s[k].isDefault then
      match FirstOther(s, k)
      case None => Err(LastDefault)
      case Some(o) =>
        var promoted := if OtherDefault(s, k) then s else s[o := s[o].(isDefault := true)];
        Ok(Removed(promoted, k))
    else Ok(Removed(s, k))
  }

  lemma RemovedAt(s: seq<Address>, k: nat, j: nat)
    requires k < |s| && j < |s| - 1
    ensures Removed(s, k)[j] == if j < k then s[j] else s[j + 1]
  {
  }

  /** The only address, when it is the default, cannot be deleted. */
  lemma DeleteOnlyDefaultRefused(s: seq<Address>)
    requires |s| == 1 && s[0].isDefault
    ensures AfterDelete(s, 0) == Err(LastDefault)
  {
  }

  /** Deletion keeps exactly one default: deleting the default promotes the
      first other address, deleting another address leaves the default. */
  lemma DeleteKeepsOneDefault(s: seq<Address>, k: nat)
    requires k < |s| && OneDefault(s) && UniqueIds(s)
    requires AfterDelete(s, k).Ok?
    ensures OneDefault(AfterDelete(s, k).value)
    ensures s[k].isDefault ==>
              var o := FirstOther(s, k).value;
              OnlyDefault(AfterDelete(s, k).value, if o < k then o else o - 1)
  {
    var t := AfterDelete(s, k).value;
    var d: nat :| OnlyDefault(s, d);
    if s[k].isDefault {
      assert d == k;
      var o := FirstOther(s, k).value;
      assert !OtherDefault(s, k);
      var promoted := s[o := s[o].(isDefault := true)];
      assert t == Removed(promoted, k);
      var o' := if o < k then o else o - 1;
      forall j | 0 <= j < |t|
        ensures t[j].isDefault <==> j == o'
      {
        RemovedAt(promoted, k, j);
      }
      assert OnlyDefault(t, o');
    } else {
      assert t == Removed(s, k);
      assert d != k;
      var d': nat := if d < k then d else d - 1;
      forall j | 0 <= j < |t|
        ensures t[j].isDefault <==> j == d'
      {
        RemovedAt(s, k, j);
      }
      assert OnlyDefault(t, d');
    }
  }

  // ---------------------------------------------------------------- the stored list

  /** `cust.addresses` of one customer. */
  class AddressBook {
    var addresses: seq<Address>

    ghost predicate Valid()
      reads this
    {
      OneDefault(addresses) && UniqueIds(addresses) &&
      forall j :: 0 <= j < |addresses| ==> Storable(addresses[j])
    }

    constructor ()
      ensures Valid() && addresses == []
    {
      addresses := [];
    }

    /** `POST /api/customers/addresses`; `id` is the id the store gives the
        new address. */
    method Add(id: string, a: NewAddress) returns (r: Result<Address, AddressError>)
      requires Valid()
      requires forall j :: 0 <= j < |addresses| ==> addresses[j].id != id
      modifies this
      ensures Valid()
      ensures a.address == "" || a.pincode == "" || a.name == "" ==> r == Err(FieldsRequired) && addresses == old(addresses)
      // a pincode of spaces passes the check but is trimmed to "", which the
      // schema refuses
      ensures a.address != "" && a.pincode != "" && a.name != "" && Trim(a.pincode) == "" ==>
                r == Err(SaveFailed) && addresses == old(addresses)
      ensures a.address != "" && Trim(a.pincode) != "" && a.name != "" ==>
                addresses == Added(old(addresses), id, a) && r == Ok(addresses[|addresses| - 1])
    {
      if a.address == "" || a.pincode == "" || a.name == "" {
        return Err(FieldsRequired);
      }
      if Trim(a.pincode) == "" {
        return Err(SaveFailed);
      }
      // The route then clears the flag of every address but the new one when
      // the new one is the default; it is the default only in an empty list,
      // so that pass changes nothing.
      AddKeepsOneDefault(addresses, id, a);
      addresses := addresses + [NewEntry(addresses, id, a)];
      r := Ok(addresses[|addresses| - 1]);
    }

    /** `PATCH /api/customers/addresses/:addrId`. */
    method Edit(id: string, e: AddressEdit) returns (r: Result<Address, AddressError>)
      requires Valid()
      modifies this
      ensures Valid()
      ensures FindAddress(old(addresses), id).None? ==> r == Err(AddressNotFound) && addresses == old(addresses)
      // an edit that empties the address or the pincode fails to save
      ensures FindAddress(old(addresses), id).Some? &&
              !Storable(EditFields(old(addresses)[FindAddress(old(addresses), id).value], e)) ==>
                r == Err(SaveFailed) && addresses == old(addresses)
      ensures FindAddress(old(addresses), id).Some? &&
              Storable(EditFields(old(addresses)[FindAddress(old(addresses), id).value], e)) ==>
                var k := FindAddress(old(addresses), id).value;
                addresses == Edited(old(addresses), k, e) && r == Ok(addresses[k])
    {
      var found := FindAddress(addresses, id);
      if found.None? {
        return Err(AddressNotFound);
      }
      var k := found.value;
      if !Storable(EditFields(addresses[k], e)) {
        return Err(SaveFailed);
      }
      EditKeepsOneDefault(addresses, k, e);
      EditedKeepsIdsAndStorable(addresses, k, e);
      ghost var want := Edited(addresses, k, e);
      var edited := addresses[k := EditFields(addresses[k], e)];
      addresses := edited;
      if e.isDefault == Some(true) {
        // `cust.addresses.forEach(a => (a.isDefault = false)); addr.isDefault = true;`
        for i := 0 to |addresses|
          invariant |addresses| == |edited|
          invariant forall j :: 0 <= j < i ==> addresses[j] == edited[j].(isDefault := false)
          invariant forall j :: i <= j < |addresses| ==> addresses[j] == edited[j]
        {
          addresses := addresses[i := addresses[i].(isDefault := false)];
        }
        addresses := addresses[k := addresses[k].(isDefault := true)];
        assert addresses == WithOnlyDefault(edited, k);
      }
      assert addresses == want;
      r := Ok(addresses[k]);
    }

    /** `DELETE /api/customers/addresses/:addrId`. */
    method Delete(id: string) returns (r: Result<(), AddressError>)
      requires Valid()
      modifies this
      ensures Valid()
      ensures FindAddress(old(addresses), id).None? ==> r == Err(AddressNotFound) && addresses == old(addresses)
      ensures FindAddress(old(addresses), id).Some? ==>
                var outcome := AfterDelete(old(addresses), FindAddress(old(addresses), id).value);
                (outcome.Err? ==> r == Err(outcome.error) && addresses == old(addresses)) &&
                (outcome.Ok? ==> r == Ok(()) && addresses == outcome.value)
    {
      var found := FindAddress(addresses, id);
      if found.None? {
        return Err(AddressNotFound);
      }
      var k := found.value;
      var outcome := AfterDelete(addresses, k);
      if outcome.Err? {
        return Err(outcome.error);
      }
      DeleteKeepsOneDefault(addresses, k);
      UniqueAfterDelete(addresses, k);
      StorableAfterDelete(addresses, k);
      addresses := outcome.value;
      r := Ok(());
    }
  }

  lemma StorableAfterDelete(s: seq<Address>, k: nat)
    requires k < |s| && AfterDelete(s, k).Ok?
    requires forall j :: 0 <= j < |s| ==> Storable(s[j])
    ensures forall j :: 0 <= j < |AfterDelete(s, k).value| ==> Storable(AfterDelete(s, k).value[j])
  {
    var t := AfterDelete(s, k).value;
    var base := if s[k].isDefault && !OtherDefault(s, k) then s[FirstOther(s, k).value := s[FirstOther(s, k).value].(isDefault := true)] else s;
    assert t == Removed(base, k);
    forall j | 0 <= j < |t|
      ensures Storable(t[j])
    {
      RemovedAt(base, k, j);
    }
  }

  lemma UniqueAfterDelete(s: seq<Address>, k: nat)
    requires k < |s| && UniqueIds(s) && AfterDelete(s, k).Ok?
    ensures UniqueIds(AfterDelete(s, k).value)
  {
    var t := AfterDelete(s, k).value;
    var base := if s[k].isDefault && !OtherDefault(s, k) then s[FirstOther(s, k).value := s[FirstOther(s, k).value].(isDefault := true)] else s;
    assert t == Removed(base, k);
    forall i, j | 0 <= i < j < |t|
      ensures t[i].id != t[j].id
    {
      RemovedAt(base, k, i);
      RemovedAt(base, k, j);
    }
  }
}
