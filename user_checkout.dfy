/** The user-panel checkout (pages/user/Checkout.jsx): three ways to give a
    delivery address (current location, a typed address, a saved address),
    a validator that fills an error map, per-field edits that clear only that
    field's error, and the order data passed on once the form is valid. */
module UserCheckout {
  import opened Domain
  import opened Text

  datatype AddressMode = Geolocation | Manual | Saved

  /** The form of the typed address; `labelText` is the `label` field. */
  datatype ManualAddress = ManualAddress(labelText: string, address: string, phoneNumber: string)

  datatype ManualField = LabelField | AddressField | PhoneField

  /** The key a manual field has in the form object and in the error map. */
  function Key(f: ManualField): string {
    match f
    case LabelField => "label"
    case AddressField => "address"
    case PhoneField => "phoneNumber"
  }

  /** The position obtained from the browser, with the text shown for it. */
  datatype Location = Location(lat: real, lng: real, address: string)

  const LabelRequired := "Address label is required"
  const AddressRequired := "Address is required"
  const PhoneRequired := "Phone number is required"
  const PhoneInvalid := "Please enter a valid 10-digit phone number"
  const LocationMissing := "Please get your current location"
  const SavedMissing := "Please select a saved address"

  /** The label and phone number used for a delivery to the current location. */
  const CurrentLocationLabel := "Current Location"
  const ProfilePhone := "9876543210"

  function With(e: map<string, string>, cond: bool, key: string, msg: string): map<string, string> {
    if cond then e[key := msg] else e
  }

  /** The error map `validateForm` builds. */
  function FormErrors(mode: AddressMode, m: ManualAddress, location: Option<Location>,
                      saved: Option<DeliveryAddress>): map<string, string>
  {
    match mode
    case Manual =>
      var e0 := With(map[], IsBlank(m.labelText), "label", LabelRequired);
      var e1 := With(e0, IsBlank(m.address), "address", AddressRequired);
      if IsBlank(m.phoneNumber) then e1["phoneNumber" := PhoneRequired]
      else With(e1, !MatchesTenDigits(m.phoneNumber), "phoneNumber", PhoneInvalid)
    case Geolocation => With(map[], location.None?, "location", LocationMissing)
    case Saved => With(map[], saved.None?, "savedAddress", SavedMissing)
  }

  /** A ten-digit phone number is never blank. */
  lemma TenDigitsNotBlank(s: string)
    requires MatchesTenDigits(s)
    ensures !IsBlank(s)
  {
    assert IsDigit(s[0]) && !IsSpace(s[0]);
  }

  /** What the validator checks. In manual mode the label and address must be
      non-blank, and the phone number gets at most one error: "required" when
      blank, otherwise "invalid" unless it is exactly ten digits; so the phone
      is accepted exactly when it is ten digits. In the other modes the one
      check is that a location, or a saved address, has been chosen. */
  lemma FormErrorsMeaning(mode: AddressMode, m: ManualAddress, location: Option<Location>,
                          saved: Option<DeliveryAddress>)
    ensures var e := FormErrors(mode, m, location, saved);
      && (mode == Manual ==>
            && e.Keys <= {"label", "address", "phoneNumber"}
            && ("label" in e <==> IsBlank(m.labelText))
            && ("address" in e <==> IsBlank(m.address))
            && ("phoneNumber" in e <==> !MatchesTenDigits(m.phoneNumber))
            && ("phoneNumber" in e ==>
                  e["phoneNumber"] == if IsBlank(m.phoneNumber) then PhoneRequired else PhoneInvalid))
      && (mode == Geolocation ==> e.Keys <= {"location"} && (e == map[] <==> location.Some?))
      && (mode == Saved ==> e.Keys <= {"savedAddress"} && (e == map[] <==> saved.Some?))
  {
    var e := FormErrors(mode, m, location, saved);
    if mode == Manual {
      if MatchesTenDigits(m.phoneNumber) {
        TenDigitsNotBlank(m.phoneNumber);
      }
    } else if mode == Geolocation {
      assert location.None? ==> "location" in e;
    } else {
      assert saved.None? ==> "savedAddress" in e;
    }
  }

  /** The delivery address `handlePlaceOrder` builds for a valid form. */
  function DeliveryAddressFor(mode: AddressMode, m: ManualAddress, location: Option<Location>,
                              saved: Option<DeliveryAddress>): (a: DeliveryAddress)
    requires FormErrors(mode, m, location, saved) == map[]
    ensures mode == Geolocation ==>
      location.Some? &&
      a == DeliveryAddress(None, CurrentLocationLabel, location.value.address,
                           Some(location.value.lat), Some(location.value.lng), ProfilePhone)
    ensures mode == Manual ==>
      a.id.None? && a.lat.None? && a.lng.None?
      && a.labelText == m.labelText && a.address == m.address && a.phoneNumber == m.phoneNumber
      && !IsBlank(a.labelText) && !IsBlank(a.address) && MatchesTenDigits(a.phoneNumber)
    ensures mode == Saved ==> saved == Some(a)
  {
    FormErrorsMeaning(mode, m, location, saved);
    match mode
    case Geolocation =>
      DeliveryAddress(None, CurrentLocationLabel, location.value.address,
                      Some(location.value.lat), Some(location.value.lng), ProfilePhone)
    case Manual => DeliveryAddress(None, m.labelText, m.address, None, None, m.phoneNumber)
    case Saved => saved.value
  }

  class CheckoutPage {
    /** `location.state`; without it the page redirects and renders nothing,
        so no handler below can run. */
    const orderData: UserOrder
    var mode: AddressMode
    var currentLocation: Option<Location>
    var manualAddress: ManualAddress
    var errors: map<string, string>
    var selectedSavedAddress: Option<DeliveryAddress>

    constructor (orderData: UserOrder)
      ensures this.orderData == orderData && mode == Geolocation && currentLocation.None?
      ensures manualAddress == ManualAddress("", "", "") && errors == map[]
      ensures selectedSavedAddress.None?
    {
      this.orderData := orderData;
      mode := Geolocation;
      currentLocation := None;
      manualAddress := ManualAddress("", "", "");
      errors := map[];
      selectedSavedAddress := None;
    }

    /** `validateForm()`: stores the error map and reports whether it is empty. */
    method ValidateForm() returns (valid: bool)
      modifies this`errors
      ensures errors == FormErrors(mode, manualAddress, currentLocation, selectedSavedAddress)
      ensures valid <==> errors == map[]
    {
      var newErrors := FormErrors(mode, manualAddress, currentLocation, selectedSavedAddress);
      errors := newErrors;
      valid := |newErrors| == 0;
    }

    /** `handlePlaceOrder(now)`: nothing leaves the page while the form is
        invalid; otherwise the incoming order gains the delivery address and
        the order time, and no other field changes. */
    method HandlePlaceOrder(now: string) returns (next: Option<UserOrder>)
      modifies this`errors
      ensures errors == FormErrors(mode, manualAddress, currentLocation, selectedSavedAddress)
      ensures next.None? <==> errors != map[]
      ensures next.Some? ==>
        next.value == orderData.(deliveryAddress := Some(DeliveryAddressFor(mode, manualAddress, currentLocation, selectedSavedAddress)),
                                 orderTime := Some(now))
    {
      var valid := ValidateForm();
      if !valid {
        return None;
      }
      var address := DeliveryAddressFor(mode, manualAddress, currentLocation, selectedSavedAddress);
      next := Some(orderData.(deliveryAddress := Some(address), orderTime := Some(now)));
    }

    /** `handleManualAddressChange(field, value)`: sets one field of the typed
        address and, when that field has a (non-empty) error, clears that
        error to the empty string; every other field and error is kept. */
    method HandleManualAddressChange(field: ManualField, value: string)
      modifies this`manualAddress, this`errors
      ensures field == LabelField ==> manualAddress == old(manualAddress).(labelText := value)
      ensures field == AddressField ==> manualAddress == old(manualAddress).(address := value)
      ensures field == PhoneField ==> manualAddress == old(manualAddress).(phoneNumber := value)
      ensures errors.Keys == old(errors).Keys
      ensures forall k :: k in errors && k != Key(field) ==> errors[k] == old(errors)[k]
      ensures Key(field) in errors ==> errors[Key(field)] == ""
    {
      match field {
        case LabelField => manualAddress := manualAddress.(labelText := value);
        case AddressField => manualAddress := manualAddress.(address := value);
        case PhoneField => manualAddress := manualAddress.(phoneNumber := value);
      }
      var key := Key(field);
      if key in errors && errors[key] != "" {
        errors := errors[key := ""];
      }
    }

    method SelectMode(m: AddressMode)
      modifies this`mode
      ensures mode == m
    {
      mode := m;
    }

    method SetCurrentLocation(loc: Location)
      modifies this`currentLocation
      ensures currentLocation == Some(loc)
    {
      currentLocation := Some(loc);
    }

    method SelectSavedAddress(a: DeliveryAddress)
      modifies this`selectedSavedAddress
      ensures selectedSavedAddress == Some(a)
    {
      selectedSavedAddress := Some(a);
    }
  }
}
