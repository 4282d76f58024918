/** The address manager of the customer profile menu
    (services/customer-frontend/src/components/ProfileMenu.jsx): the phone
    as the list shows it, the edit form's phone and pincode fields, the
    request a save sends, and the delete guard. */
module ProfileMenu {
  import opened Wrappers
  import opened Text
  import opened Phones

  /** The first `n` characters of `s` (`s.slice(0, n)`). */
  function First(s: string, n: nat): (r: string)
    ensures |r| <= n && StartsWith(s, r)
    ensures |r| == if |s| < n then |s| else n
  {
    if |s| <= n then s else s[..n]
  }

  // ---------------------------------------------------------------- phones

  /** `normalizePhone`, used to show an address's phone in the list: ten
      digits get `+91`, anything else is shown as given. */
  function NormalizePhone(p: string): (r: string)
    ensures p == "" ==> r == ""
    ensures |Digits(p)| == 10 ==> r == "+91" + Digits(p)
    ensures |Digits(p)| != 10 ==> r == p
  {
    if p == "" then ""
    else
      var digits := Digits(p);
      if |digits| == 10 then "+91" + digits
      else p
  }

  /** Showing a shown phone again changes nothing. */
  lemma NormalizePhoneIdempotent(p: string)
    ensures NormalizePhone(NormalizePhone(p)) == NormalizePhone(p)
  {
    var d := Digits(p);
    if |d| == 10 {
      DigitsOfPlus91(d);
    }
  }

  /** `stripPhone`: the last ten digits, which the edit form shows. */
  function StripPhone(p: string): (r: string)
    ensures AllDigits(r)
    // the digits typed end with `r`, and `r` is all of them up to ten
    ensures EndsWith(Digits(p), r)
    ensures |r| == if |Digits(p)| <= 10 then |Digits(p)| else 10
  {
    Last10(Digits(p))
  }

  /** The phone `handleSave` sends: `+91` and the last ten digits, or empty
      without digits. */
  function BuildPhone(formPhone: string): (r: string)
    ensures Digits(formPhone) == [] ==> r == ""
    ensures Digits(formPhone) != [] ==> StartsWith(r, "+91") && r[3..] == StripPhone(formPhone)
  {
    var digits := StripPhone(formPhone);
    if digits == [] then "" else "+91" + digits
  }

  /** The phone field keeps digits only, at most ten. */
  function PhoneField(input: string): (r: string)
    ensures AllDigits(r) && StartsWith(Digits(input), r)
    ensures |r| == if |Digits(input)| < 10 then |Digits(input)| else 10
  {
    First(Digits(input), 10)
  }

  /** The pincode field keeps digits only, at most six. */
  function PincodeField(input: string): (r: string)
    ensures AllDigits(r) && StartsWith(Digits(input), r)
    ensures |r| == if |Digits(input)| < 6 then |Digits(input)| else 6
  {
    First(Digits(input), 6)
  }

  /** Typing into a field that already holds filtered text keeps it. */
  lemma FieldsAreStable(input: string)
    ensures PhoneField(PhoneField(input)) == PhoneField(input)
    ensures PincodeField(PincodeField(input)) == PincodeField(input)
  {
    DigitsOfDigits(PhoneField(input));
    DigitsOfDigits(PincodeField(input));
  }

  /** Every ten-digit number survives the whole round trip: saved as `+91`
      and the digits, stored unchanged by the address routes, and shown
      again as the same ten digits when the address is edited. */
  lemma PhoneRoundTrip(d: string)
    requires |d| == 10 && AllDigits(d)
    ensures BuildPhone(d) == "+91" + d
    ensures AddressPhone(BuildPhone(d)) == BuildPhone(d)
    ensures StripPhone(AddressPhone(BuildPhone(d))) == d
  {
    DigitsOfDigits(d);
    DigitsOfPlus91(d);
    var stored := "+91" + d;
    assert Digits(stored) == "91" + d;
    assert "+" + ("91" + d) == stored;
    assert Last10("91" + d) == d by {
      assert ("91" + d)[2..] == d;
    }
  }

  /** A field holding eight digits is saved with `+91` in front; the address
      routes then read those ten digits as a national number and store it
      with a second `+91`. */
  lemma EightDigitsGetTwoPrefixes(d: string)
    requires |d| == 8 && AllDigits(d)
    ensures AddressPhone(BuildPhone(d)) == "+9191" + d
  {
    DigitsOfDigits(d);
    DigitsOfPlus91(d);
    assert "+91" + ("91" + d) == "+9191" + d;
  }

  // ---------------------------------------------------------------- save and delete

  /** The fields of the address form and of the body a save sends. */
  datatype AddressFields = AddressFields(tag: string, name: string, phone: string, address: string, pincode: string)

  /** The form of a new address. */
  const NewForm := AddressFields("Home", "", "", "", "")

  /** The form for editing a stored address: its fields, phone stripped. */
  function EditForm(stored: AddressFields): (f: AddressFields)
    ensures f.phone == StripPhone(stored.phone)
    ensures f.(phone := stored.phone) == stored
  {
    stored.(phone := StripPhone(stored.phone))
  }

  datatype SaveRequest = SaveRequest(verb: string, path: string, body: AddressFields)

  datatype SaveError = FieldsRequired   // "Please fill all required fields."

  /** `handleSave`: no request while the name, address or pincode is empty;
      otherwise `PATCH` of the edited address or `POST` of a new one, with
      the phone rebuilt. `editId` is the edited address's id. */
  function HandleSave(form: AddressFields, editId: Option<string>): (r: Result<SaveRequest, SaveError>)
    ensures r.Err? <==> form.name == "" || form.address == "" || form.pincode == ""
    ensures r.Ok? ==> (r.value.verb == "PATCH" <==> editId.Some?) && (r.value.verb == "POST" <==> editId.None?)
    ensures r.Ok? ==> r.value.body == form.(phone := BuildPhone(form.phone))
    ensures r.Ok? && editId.Some? ==> r.value.path == "/api/customers/addresses/" + editId.value
    ensures r.Ok? && editId.None? ==> r.value.path == "/api/customers/addresses"
  {
    if form.name == "" || form.address == "" || form.pincode == "" then Err(FieldsRequired)
    else
      var body := form.(phone := BuildPhone(form.phone));
      match editId
      case Some(id) => Ok(SaveRequest("PATCH", "/api/customers/addresses/" + id, body))
      case None => Ok(SaveRequest("POST", "/api/customers/addresses", body))
  }

  /** Editing an address saved from this form and saving it unchanged sends
      back the phone it has. */
  lemma EditThenSaveKeepsPhone(stored: AddressFields, id: string, d: string)
    requires stored.name != "" && stored.address != "" && stored.pincode != ""
    requires |d| == 10 && AllDigits(d) && stored.phone == "+91" + d
    ensures HandleSave(EditForm(stored), Some(id)) == Ok(SaveRequest("PATCH", "/api/customers/addresses/" + id, stored))
  {
    PhoneRoundTrip(d);
    assert StripPhone(stored.phone) == d;
    DigitsOfDigits(d);
  }

  /** What `deleteAddr` does. */
  datatype DeleteDecision = RefusedDefault | Cancelled | SendDelete(path: string)

  /** `deleteAddr`: a default address is refused before any question or
      request; otherwise the request is sent once the user confirms. */
  function DeleteAddr(addrId: string, isDefault: bool, confirmed: bool): (r: DeleteDecision)
    ensures isDefault ==> r == RefusedDefault
    ensures r.SendDelete? <==> !isDefault && confirmed
    ensures r.SendDelete? ==> r.path == "/api/customers/addresses/" + addrId
  {
    if isDefault then RefusedDefault
    else if !confirmed then Cancelled
    else SendDelete("/api/customers/addresses/" + addrId)
  }
}
