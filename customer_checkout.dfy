/** The customer-panel checkout (pages/customer/Checkout.jsx): contact and
    address fields, a validator with the Indian mobile-number rule, per-field
    edits that clear only that field's error, choosing and saving addresses,
    and the step on to payment. */
module CustomerCheckout {
  import opened Domain
  import opened Text

  /** The form state `deliveryInfo`. A landmark that is absent is "". */
  datatype DeliveryInfo = DeliveryInfo(name: string, phone: string, address: string,
                                       landmark: string, city: string)

  /** An entry of the saved-address list; `id` is the time it was saved. */
  datatype SavedAddress = SavedAddress(id: int, address: string, landmark: string, city: string)

  /** The inputs of the form, by their `name` attribute. */
  datatype Field = NameField | PhoneField | AddressField | LandmarkField | CityField

  function Key(f: Field): string {
    match f
    case NameField => "name"
    case PhoneField => "phone"
    case AddressField => "address"
    case LandmarkField => "landmark"
    case CityField => "city"
  }

  const NameRequired := "Name is required"
  const PhoneRequired := "Phone number is required"
  const PhoneInvalid := "Please enter a valid 10-digit phone number"
  const AddressRequired := "Delivery address is required"
  const CityRequired := "City is required"

  datatype Navigation = Stay | ToMealBuilder | ToPayment

  /** On mount the page leaves for the meal builder when no sabji is selected. */
  function MountNavigation(selectedCount: nat): (nav: Navigation)
    ensures nav == ToMealBuilder <==> selectedCount == 0
    ensures nav != ToPayment
  {
    if selectedCount == 0 then ToMealBuilder else Stay
  }

  /** The error map `validateForm` builds. */
  function FormErrors(info: DeliveryInfo): map<string, string> {
    ErrorsFor(IsBlank(info.name), IsBlank(info.phone), MatchesMobileNumber(info.phone),
              IsBlank(info.address), IsBlank(info.city))
  }

  /** The error map from the outcome of each check. */
  function ErrorsFor(nameBlank: bool, phoneBlank: bool, phoneMatches: bool,
                     addressBlank: bool, cityBlank: bool): map<string, string> {
    var e0: map<string, string> := if nameBlank then map["name" := NameRequired] else map[];
    var e1 := if phoneBlank then e0["phone" := PhoneRequired]
              else if !phoneMatches then e0["phone" := PhoneInvalid]
              else e0;
    var e2 := if addressBlank then e1["address" := AddressRequired] else e1;
    if cityBlank then e2["city" := CityRequired] else e2
  }

  /** A number accepted by the mobile rule is never blank. */
  lemma MobileNumberNotBlank(s: string)
    requires MatchesMobileNumber(s)
    ensures !IsBlank(s)
  {
    assert !IsSpace(s[0]);
  }

  /** What the validator checks: name, address and city non-blank; the phone
      accepted exactly when it is ten digits starting with 6 to 9, with the
      "required" message when blank and the "invalid" one otherwise; the
      landmark is never looked at. */
  lemma FormErrorsMeaning(info: DeliveryInfo)
    ensures var e := FormErrors(info);
      && e.Keys <= {"name", "phone", "address", "city"}
      && ("name" in e <==> IsBlank(info.name))
      && ("phone" in e <==> !MatchesMobileNumber(info.phone))
      && ("phone" in e ==> e["phone"] == if IsBlank(info.phone) then PhoneRequired else PhoneInvalid)
      && ("address" in e <==> IsBlank(info.address))
      && ("city" in e <==> IsBlank(info.city))
  {
    if MatchesMobileNumber(info.phone) {
      MobileNumberNotBlank(info.phone);
    }
  }

  /** The landmark never affects validation. */
  lemma LandmarkNotValidated(info: DeliveryInfo, landmark: string)
    ensures FormErrors(info.(landmark := landmark)) == FormErrors(info)
  {
  }

  /** The form passes every check. */
  predicate IsValid(info: DeliveryInfo) {
    !IsBlank(info.name) && MatchesMobileNumber(info.phone) && !IsBlank(info.address) && !IsBlank(info.city)
  }

  /** `validateForm` succeeds, i.e. its error map is empty, exactly when every
      check passes. */
  lemma ValidIffNoErrors(info: DeliveryInfo)
    ensures FormErrors(info) == map[] <==> IsValid(info)
  {
    FormErrorsMeaning(info);
    var e := FormErrors(info);
    if e == map[] {
      assert "name" !in e && "phone" !in e && "address" !in e && "city" !in e;
    }
  }

  /** `handleInputChange`: the named field takes the typed value. */
  function WithField(info: DeliveryInfo, f: Field, value: string): (r: DeliveryInfo)
    ensures f == NameField ==> r == info.(name := value)
    ensures f == PhoneField ==> r == info.(phone := value)
    ensures f == AddressField ==> r == info.(address := value)
    ensures f == LandmarkField ==> r == info.(landmark := value)
    ensures f == CityField ==> r == info.(city := value)
  {
    match f
    case NameField => info.(name := value)
    case PhoneField => info.(phone := value)
    case AddressField => info.(address := value)
    case LandmarkField => info.(landmark := value)
    case CityField => info.(city := value)
  }

  /** The error map after an edit: the edited field's error, if it had a
      non-empty one, becomes ""; the others are kept. */
  function ClearedError(errors: map<string, string>, key: string): (r: map<string, string>)
    ensures r.Keys == errors.Keys
    ensures forall k :: k in r && k != key ==> r[k] == errors[k]
    ensures key in r ==> r[key] == ""
  {
    if key in errors && errors[key] != "" then errors[key := ""] else errors
  }

  /** `selectSavedAddress`: address, landmark and city come from the saved
      entry; name and phone are kept. */
  function WithSavedAddress(info: DeliveryInfo, a: SavedAddress): (r: DeliveryInfo)
    ensures r.name == info.name && r.phone == info.phone
    ensures r.address == a.address && r.landmark == a.landmark && r.city == a.city
  {
    info.(address := a.address, landmark := a.landmark, city := a.city)
  }

  /** `saveCurrentAddress` refuses only an empty address or city, without
      trimming, so an address of blanks is saved although the validator
      rejects it. */
  predicate CanSave(info: DeliveryInfo) {
    info.address != "" && info.city != ""
  }

  lemma SavedButInvalid()
    ensures var info := DeliveryInfo("Asha", "9876543210", " ", "", "Pune");
      CanSave(info) && "address" in FormErrors(info)
  {
    var info := DeliveryInfo("Asha", "9876543210", " ", "", "Pune");
    assert IsBlank(info.address);
  }

  class CheckoutPage {
    var deliveryInfo: DeliveryInfo
    var savedAddresses: seq<SavedAddress>
    var selectedAddressId: Option<int>
    var errors: map<string, string>
    /** The address handed to the order context by `updateAddress`. */
    var committedAddress: Option<DeliveryInfo>

    /** Mounting: the form starts from the signed-in user's name and phone
        and the order context's address ("" where missing), and the saved
        list read from storage. */
    constructor (userName: string, userPhone: string, address: string, landmark: string,
                 city: string, stored: seq<SavedAddress>)
      ensures deliveryInfo == DeliveryInfo(userName, userPhone, address, landmark, city)
      ensures savedAddresses == stored && selectedAddressId.None? && errors == map[]
      ensures committedAddress.None?
    {
      deliveryInfo := DeliveryInfo(userName, userPhone, address, landmark, city);
      savedAddresses := stored;
      selectedAddressId := None;
      errors := map[];
      committedAddress := None;
    }

    method HandleInputChange(f: Field, value: string)
      modifies this`deliveryInfo, this`errors
      ensures deliveryInfo == WithField(old(deliveryInfo), f, value)
      ensures errors == ClearedError(old(errors), Key(f))
    {
      deliveryInfo := WithField(deliveryInfo, f, value);
      var key := Key(f);
      if key in errors && errors[key] != "" {
        errors := errors[key := ""];
      }
    }

    method SelectSavedAddress(a: SavedAddress)
      modifies this`selectedAddressId, this`deliveryInfo
      ensures selectedAddressId == Some(a.id)
      ensures deliveryInfo == WithSavedAddress(old(deliveryInfo), a)
    {
      selectedAddressId := Some(a.id);
      deliveryInfo := deliveryInfo.(address := a.address, landmark := a.landmark, city := a.city);
    }

    /** `saveCurrentAddress(now)`: appends one entry stamped `now`, or
        changes nothing when address or city is empty. */
    method SaveCurrentAddress(now: int) returns (saved: bool)
      modifies this`savedAddresses
      ensures saved <==> CanSave(deliveryInfo)
      ensures saved ==>
        savedAddresses == old(savedAddresses) + [SavedAddress(now, deliveryInfo.address, deliveryInfo.landmark, deliveryInfo.city)]
      ensures !saved ==> savedAddresses == old(savedAddresses)
    {
      if deliveryInfo.address == "" || deliveryInfo.city == "" {
        return false;
      }
      var newAddress := SavedAddress(now, deliveryInfo.address, deliveryInfo.landmark, deliveryInfo.city);
      savedAddresses := savedAddresses + [newAddress];
      saved := true;
    }

    method ValidateForm() returns (valid: bool)
      modifies this`errors
      ensures errors == FormErrors(deliveryInfo)
      ensures valid <==> errors == map[]
    {
      errors := FormErrors(deliveryInfo);
      valid := IsValid(deliveryInfo);
      ValidIffNoErrors(deliveryInfo);
    }

    /** `handleProceedToPayment`: the address is committed and the page moves
        on only when the form is valid. */
    method HandleProceedToPayment() returns (nav: Navigation)
      modifies this`errors, this`committedAddress
      ensures errors == FormErrors(deliveryInfo)
      ensures nav == ToPayment <==> errors == map[]
      ensures nav == ToPayment ==> committedAddress == Some(deliveryInfo)
      ensures nav != ToPayment ==> nav == Stay && committedAddress == old(committedAddress)
    {
      var valid := ValidateForm();
      if !valid {
        return Stay;
      }
      committedAddress := Some(deliveryInfo);
      nav := ToPayment;
    }
  }
}
