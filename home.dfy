/** The landing page's cash-on-delivery order form: the form object and its change handlers,
    sanitisation and validation on submit, construction of the stored order record, and the
    reveal of the page's sections.

    `localStorage['orders']` is the sequence `orders`; the clock (`Date.now()` and the
    ISO strings of `new Date()`), the random tracking suffix and the phone-number validator
    of the phone-input library are parameters. */
module Home {
  import opened Wrappers
  import opened Text

  // ---------------------------------------------------------------------------------------
  // The form

  /** The `order` state object. `shippingCountry` and `orderId` are keys the object gains
      later (from the address selector, and after a submission). */
  datatype OrderForm = OrderForm(
    fullname: string, address: string, region: string, city: string, contact: string,
    email: string, courier: string, notes: string, privacyAgreement: bool,
    shippingCountry: Option<string>, orderId: Option<string>)

  /** The form's initial value, restored when the confirmation is closed. */
  const EmptyForm: OrderForm := OrderForm("", "", "", "", "", "", "J&T Express", "", false, None, None)

  /** A value held under one key of the form object. */
  datatype Value = Str(s: string) | Flag(b: bool)

  /** The keys of the form object. */
  datatype Key =
    | FullnameKey | AddressKey | RegionKey | CityKey | ContactKey | EmailKey | CourierKey
    | NotesKey | PrivacyAgreementKey | ShippingCountryKey | OrderIdKey

  /** The key a change event's `name` addresses in `handleChange`; `None` for a name outside
      the form. The page's named elements are the `fullname`, `email` and `notes` inputs, the
      `courier` select and the `privacyAgreement` checkbox; the address, region, city and
      contact keys are written by the callbacks of `Change` instead. */
  function KeyNamed(name: string): Option<Key> {
    if name == "fullname" then Some(FullnameKey)
    else if name == "address" then Some(AddressKey)
    else if name == "region" then Some(RegionKey)
    else if name == "city" then Some(CityKey)
    else if name == "contact" then Some(ContactKey)
    else if name == "email" then Some(EmailKey)
    else if name == "courier" then Some(CourierKey)
    else if name == "notes" then Some(NotesKey)
    else if name == "privacyAgreement" then Some(PrivacyAgreementKey)
    else None
  }

  /** Exactly the nine form properties have names; the shipping country and the order id are
      never addressed by a change event. */
  lemma KeyNamedNamesFormProperties(name: string)
    ensures KeyNamed(name).Some? <==>
      name in {"fullname", "address", "region", "city", "contact", "email", "courier", "notes", "privacyAgreement"}
    ensures KeyNamed(name) != Some(ShippingCountryKey) && KeyNamed(name) != Some(OrderIdKey)
  {
  }

  /** Reading one property of the form object; `None` is a key the object does not have yet. */
  function Field(f: OrderForm, key: Key): Option<Value> {
    match key
    case FullnameKey => Some(Str(f.fullname))
    case AddressKey => Some(Str(f.address))
    case RegionKey => Some(Str(f.region))
    case CityKey => Some(Str(f.city))
    case ContactKey => Some(Str(f.contact))
    case EmailKey => Some(Str(f.email))
    case CourierKey => Some(Str(f.courier))
    case NotesKey => Some(Str(f.notes))
    case PrivacyAgreementKey => Some(Flag(f.privacyAgreement))
    case ShippingCountryKey => if f.shippingCountry.Some? then Some(Str(f.shippingCountry.value)) else None
    case OrderIdKey => if f.orderId.Some? then Some(Str(f.orderId.value)) else None
  }

  /** A value of the kind the key holds: the agreement is a flag, every other key text. */
  predicate Fits(key: Key, v: Value) {
    v.Flag? <==> key == PrivacyAgreementKey
  }

  /** `{ ...prev, [key]: v }`. */
  function Written(f: OrderForm, key: Key, v: Value): OrderForm
    requires Fits(key, v)
  {
    match key
    case FullnameKey => f.(fullname := v.s)
    case AddressKey => f.(address := v.s)
    case RegionKey => f.(region := v.s)
    case CityKey => f.(city := v.s)
    case ContactKey => f.(contact := v.s)
    case EmailKey => f.(email := v.s)
    case CourierKey => f.(courier := v.s)
    case NotesKey => f.(notes := v.s)
    case PrivacyAgreementKey => f.(privacyAgreement := v.b)
    case ShippingCountryKey => f.(shippingCountry := Some(v.s))
    case OrderIdKey => f.(orderId := Some(v.s))
  }

  /** Writing one key of the object: that key reads the new value afterwards, every other key
      reads as before. */
  lemma WrittenOnlyChangesItsKey(f: OrderForm, key: Key, v: Value)
    requires Fits(key, v)
    ensures Field(Written(f, key, v), key) == Some(v)
    ensures forall other :: other != key ==> Field(Written(f, key, v), other) == Field(f, other)
  {
  }

  /** One update of the form: a change event of a named input (`handleChange`), or one of
      the callbacks of the address selector and of the phone input. */
  datatype Change =
    | Typed(name: string, value: string)
    | Checked(name: string, checked: bool)
    | AddressChosen(address: string)
    | CountryChosen(countryIsoCode: string)
    | RegionChosen(regionIsoCode: string)
    | CityChosen(cityName: string)
    | PhoneEntered(phone: Option<string>)

  /** The key a change writes and the value it writes there. `handleChange` stores `checked`
      for the checkbox and `value` for every other input; an event whose name is not one of
      the form's inputs writes nothing. */
  function Target(c: Change): (r: Option<(Key, Value)>)
    ensures r.Some? ==> Fits(r.value.0, r.value.1)
  {
    match c
    case Typed(name, value) =>
      if KeyNamed(name).Some? && KeyNamed(name) != Some(PrivacyAgreementKey)
      then Some((KeyNamed(name).value, Str(value))) else None
    case Checked(name, checked) =>
      if KeyNamed(name) == Some(PrivacyAgreementKey) then Some((PrivacyAgreementKey, Flag(checked))) else None
    case AddressChosen(a) => Some((AddressKey, Str(a)))
    case CountryChosen(iso) => Some((ShippingCountryKey, Str(iso)))
    case RegionChosen(iso) => Some((RegionKey, Str(iso)))
    case CityChosen(name) => Some((CityKey, Str(name)))
    case PhoneEntered(v) => Some((ContactKey, Str(v.GetOr(""))))
  }

  /** `setOrder(prev => ({ ...prev, [key]: value }))` for one change. */
  function Changed(f: OrderForm, c: Change): OrderForm {
    match Target(c)
    case None => f
    case Some((key, v)) => Written(f, key, v)
  }

  /** Every change behaves as an object spread with one computed key: the key it targets
      holds the new value afterwards, and every other key reads as before. */
  lemma ChangeWritesOnlyItsKey(f: OrderForm, c: Change)
    ensures Target(c).None? ==> Changed(f, c) == f
    ensures Target(c).Some? ==>
      && Field(Changed(f, c), Target(c).value.0) == Some(Target(c).value.1)
      && forall key :: key != Target(c).value.0 ==> Field(Changed(f, c), key) == Field(f, key)
  {
    if Target(c).Some? {
      WrittenOnlyChangesItsKey(f, Target(c).value.0, Target(c).value.1);
    }
  }

  /** A checkbox event stores `checked`, any other input stores `value`. */
  lemma CheckboxStoresChecked(f: OrderForm, checked: bool, value: string)
    ensures Changed(f, Checked("privacyAgreement", checked)).privacyAgreement == checked
    ensures Changed(f, Typed("email", value)).email == value
  {
  }

  // ---------------------------------------------------------------------------------------
  // Sanitisation and validation

  /** The characters `/[^\d+\-\s]/g` does not remove: digits, `+`, `-` and whitespace. */
  predicate ContactChar(c: char) {
    IsDigit(c) || c == '+' || c == '-' || IsWhitespace(c)
  }

  /** The sanitised copy of the form `handleSubmit` builds. */
  function Sanitized(f: OrderForm): OrderForm {
    f.(fullname := Trim(f.fullname), address := Trim(f.address),
       contact := Filter(Trim(f.contact), ContactChar),
       email := Lower(Trim(f.email)), notes := Trim(f.notes))
  }

  predicate NoUpperCase(s: string) {
    forall i :: 0 <= i < |s| ==> !('A' <= s[i] <= 'Z')
  }

  /** Sanitising trims the name, the address and the notes, trims then lower-cases the email,
      and passes region, city, courier, agreement and the extra keys through unchanged. */
  lemma SanitizedTrims(f: OrderForm)
    ensures var s := Sanitized(f);
      && s.fullname == Trim(f.fullname) && s.address == Trim(f.address) && s.notes == Trim(f.notes)
      && IsTrimmed(s.fullname) && IsTrimmed(s.address) && IsTrimmed(s.notes)
      && IsTrimmed(s.email) && NoUpperCase(s.email) && |s.email| == |Trim(f.email)|
      && (forall i :: 0 <= i < |s.email| ==> s.email[i] == LowerChar(Trim(f.email)[i]))
      && s.region == f.region && s.city == f.city && s.courier == f.courier
      && s.privacyAgreement == f.privacyAgreement
      && s.shippingCountry == f.shippingCountry && s.orderId == f.orderId
  {
    LowerFacts(Trim(f.email));
  }

  /** The sanitised contact holds only digits, `+`, `-` and whitespace, and it holds exactly
      those characters of the trimmed contact, in their order: it is a subsequence of the
      trimmed contact, and what it leaves out is exactly the removed characters. */
  lemma SanitizedContact(f: OrderForm)
    ensures var s := Sanitized(f);
      && (forall i :: 0 <= i < |s.contact| ==> ContactChar(s.contact[i]))
      && (forall c :: c in s.contact <==> c in Trim(f.contact) && ContactChar(c))
      && IsSubsequence(s.contact, Trim(f.contact))
      && |s.contact| + |Filter(Trim(f.contact), c => !ContactChar(c))| == |Trim(f.contact)|
  {
    FilterKeepsOrder(Trim(f.contact), ContactChar);
    FilterSplits(Trim(f.contact), ContactChar, c => !ContactChar(c));
  }

  /** Sanitising an already sanitised contact can change it again: the filter may uncover
      whitespace the trim had kept inside, as in `"a 1"`, which becomes `" 1"` and then `"1"`. */
  lemma ContactSanitisingIsNotIdempotent()
    ensures Filter(Trim("a 1"), ContactChar) == " 1"
    ensures Filter(Trim(" 1"), ContactChar) == "1"
  {
    TrimmedIsFixpoint("a 1");
    TrimmedIsFixpoint("1");
    assert TrimStartBy(" 1", IsWhitespace) == TrimStartBy("1", IsWhitespace);
    assert Trim(" 1") == "1";
    assert Filter("1", ContactChar) == "1";
    assert Filter(" 1", ContactChar) == " 1";
    assert Filter("a 1", ContactChar) == Filter(" 1", ContactChar);
  }

  /** Why a submission is refused, in the order the checks run. */
  datatype Refusal = MissingRequired | InvalidPhone | PrivacyNotAgreed {
    /** The text of the `alert`. */
    function Alert(): string {
      match this
      case MissingRequired => "Please fill in all required fields: name, address, region, city, contact, and email."
      case InvalidPhone => "Please enter a valid phone number for the selected country."
      case PrivacyNotAgreed => "Please agree to the Privacy Policy to proceed."
    }
  }

  predicate HasRequired(s: OrderForm) {
    s.fullname != "" && s.address != "" && s.region != "" && s.city != "" && s.contact != "" && s.email != ""
  }

  /** The three checks on the sanitised form; the first one that fails decides. */
  function Validate(s: OrderForm, validPhone: string -> bool): Option<Refusal> {
    if !HasRequired(s) then Some(MissingRequired)
    else if !validPhone(s.contact) then Some(InvalidPhone)
    else if !s.privacyAgreement then Some(PrivacyNotAgreed)
    else None
  }

  /** The checks run in the order required fields, phone, agreement: a form is refused for
      the first failing check, and accepted only when all three pass. */
  lemma ValidationOrder(s: OrderForm, validPhone: string -> bool)
    ensures Validate(s, validPhone) == Some(MissingRequired) <==> !HasRequired(s)
    ensures Validate(s, validPhone) == Some(InvalidPhone) <==> HasRequired(s) && !validPhone(s.contact)
    ensures Validate(s, validPhone) == Some(PrivacyNotAgreed) <==>
      HasRequired(s) && validPhone(s.contact) && !s.privacyAgreement
    ensures Validate(s, validPhone) == None <==>
      HasRequired(s) && validPhone(s.contact) && s.privacyAgreement
  {
  }

  // ---------------------------------------------------------------------------------------
  // The stored order

  /** A stored order (one element of `localStorage['orders']`). */
  datatype Order = Order(id: string, status: string, trackingNumber: string, courier: string,
                         orderDetails: OrderForm, timestamps: map<string, string>)

  predicate NotWhitespace(c: char) {
    !IsWhitespace(c)
  }

  /** `courier.toUpperCase().replace(/\s/g, '') + '-'`: the start of every tracking number. */
  function TrackingPrefix(courier: string): (r: string)
    ensures |r| >= 1 && r[|r| - 1] == '-'
  {
    Filter(Upper(courier), NotWhitespace) + "-"
  }

  /** The prefix holds no whitespace and no lower-case letter, and apart from its final `-`
      only characters of the upper-cased courier name. */
  lemma TrackingPrefixCharacters(courier: string)
    ensures var r := TrackingPrefix(courier);
      forall i :: 0 <= i < |r| ==> !IsWhitespace(r[i]) && !('a' <= r[i] <= 'z')
    ensures var r := TrackingPrefix(courier);
      forall i :: 0 <= i < |r| - 1 ==> r[i] in Upper(courier)
  {
    var upper := Upper(courier);
    var compact := Filter(upper, NotWhitespace);
    FilterKeepsOrder(upper, NotWhitespace);
    assert TrackingPrefix(courier) == compact + "-";
    forall i | 0 <= i < |compact|
      ensures !('a' <= compact[i] <= 'z')
    {
      assert compact[i] in upper;
    }
  }

  /** A courier name without whitespace keeps every character: its prefix is the name
      upper-cased, followed by `-`. */
  lemma TrackingPrefixOfOneWord(courier: string)
    requires forall i :: 0 <= i < |courier| ==> !IsWhitespace(courier[i])
    ensures TrackingPrefix(courier) == Upper(courier) + "-"
  {
    var upper := Upper(courier);
    forall i | 0 <= i < |upper|
      ensures NotWhitespace(upper[i])
    {
      assert upper[i] == UpperChar(courier[i]);
    }
    FilterAll(upper, NotWhitespace);
  }

  const OrderIdPrefix: string := "ORD-"

  /** `'ORD-' + Date.now()`. */
  function OrderId(now: nat): string {
    OrderIdPrefix + NatToString(now)
  }

  /** Orders submitted at different clock values get different ids. */
  lemma OrderIdInjective(m: nat, n: nat)
    ensures OrderId(m) == OrderId(n) ==> m == n
  {
    if OrderId(m) == OrderId(n) {
      assert NatToString(m) == OrderId(m)[|OrderIdPrefix|..];
      assert NatToString(n) == OrderId(n)[|OrderIdPrefix|..];
      NatToStringInjective(m, n);
    }
  }

  /** The record `handleSubmit` appends: its id from the clock, status "Packing", the
      courier's tracking prefix followed by the random `suffix`, the sanitised form, and two
      timestamps. */
  function NewOrder(s: OrderForm, now: nat, submittedAt: string, packingAt: string, suffix: string): Order {
    Order(OrderId(now), "Packing", TrackingPrefix(s.courier) + suffix, s.courier, s,
          map["submitted" := submittedAt, "packing" := packingAt])
  }

  /** The shape of a new record: an `ORD-` id followed by the clock's decimal digits, status
      "Packing", a tracking number that starts with the courier's prefix, the courier and the
      details of the sanitised form, and exactly the two timestamps `submitted` and `packing`. */
  lemma NewOrderShape(s: OrderForm, now: nat, submittedAt: string, packingAt: string, suffix: string)
    ensures var o := NewOrder(s, now, submittedAt, packingAt, suffix);
      && StartsWith(o.id, OrderIdPrefix) && o.id[|OrderIdPrefix|..] == NatToString(now)
      && o.status == "Packing"
      && StartsWith(o.trackingNumber, TrackingPrefix(s.courier))
      && o.courier == s.courier && o.orderDetails == s
      && o.timestamps.Keys == {"submitted", "packing"}
      && o.timestamps["submitted"] == submittedAt && o.timestamps["packing"] == packingAt
  {
    var o := NewOrder(s, now, submittedAt, packingAt, suffix);
    assert o.id[..|OrderIdPrefix|] == OrderIdPrefix;
    assert o.trackingNumber[..|TrackingPrefix(s.courier)|] == TrackingPrefix(s.courier);
  }

  /** The order-id text after `.replace('ORD-', '')`: what the confirmation's and the admin
      table's tracker links carry. */
  function TrackerLinkId(id: string): (r: string)
    ensures StartsWith(id, OrderIdPrefix) ==> r == id[|OrderIdPrefix|..]
    ensures !Contains(id, OrderIdPrefix) ==> r == id
  {
    ReplaceFirst(id, OrderIdPrefix, "")
  }

  /** What one press of the submit button does. */
  datatype Submission =
    | Refused(reason: Refusal)
    | Accepted(record: Order, orders: seq<Order>, form: OrderForm)

  /** `handleSubmit`: sanitise, validate, and on success append the new record to the stored
      orders and keep the form, as typed, with the new `orderId`. */
  function Submitted(f: OrderForm, validPhone: string -> bool, orders: seq<Order>,
                     now: nat, submittedAt: string, packingAt: string, suffix: string): Submission
  {
    var s := Sanitized(f);
    match Validate(s, validPhone)
    case Some(reason) => Refused(reason)
    case None =>
      var record := NewOrder(s, now, submittedAt, packingAt, suffix);
      Accepted(record, orders + [record], f.(orderId := Some(record.id)))
  }

  /** A sanitised form that passed validation: the details every record the form appends
      carries. */
  predicate CleanDetails(d: OrderForm) {
    && HasRequired(d) && d.privacyAgreement
    && IsTrimmed(d.fullname) && IsTrimmed(d.address) && IsTrimmed(d.email) && IsTrimmed(d.notes)
    && NoUpperCase(d.email)
    && forall i :: 0 <= i < |d.contact| ==> ContactChar(d.contact[i])
  }

  /** A submission is refused exactly when the sanitised form fails a check, and then nothing
      is stored; an accepted one appends exactly one record, at the end, with clean details,
      leaves every earlier record in place, and keeps the unsanitised form plus the new id. */
  lemma SubmissionOutcome(f: OrderForm, validPhone: string -> bool, orders: seq<Order>,
                          now: nat, submittedAt: string, packingAt: string, suffix: string)
    ensures var r := Submitted(f, validPhone, orders, now, submittedAt, packingAt, suffix);
      && (r.Refused? <==> Validate(Sanitized(f), validPhone).Some?)
      && (r.Refused? ==> r.reason == Validate(Sanitized(f), validPhone).value)
      && (r.Accepted? ==>
            && |r.orders| == |orders| + 1 && r.orders[..|orders|] == orders
            && r.orders[|orders|] == r.record
            && r.record.orderDetails == Sanitized(f) && CleanDetails(r.record.orderDetails)
            && r.record.status == "Packing" && r.record.id == OrderId(now)
            && r.form == f.(orderId := Some(r.record.id)))
  {
    SanitizedTrims(f);
    SanitizedContact(f);
    ValidationOrder(Sanitized(f), validPhone);
    var r := Submitted(f, validPhone, orders, now, submittedAt, packingAt, suffix);
    if r.Accepted? {
      assert r.orders == orders + [r.record];
      assert r.orders[..|orders|] == orders;
    }
  }

  // ---------------------------------------------------------------------------------------
  // The page's sections

  /** The `show…` flags; `triggerAll` sets the first nine, the buy form is opened by a button. */
  datatype Sections = Sections(
    cta: bool, social: bool, productImage: bool, benefits: bool, objections: bool,
    docs: bool, guarantee: bool, quality: bool, transform: bool, buyForm: bool)

  const Hidden: Sections := Sections(false, false, false, false, false, false, false, false, false, false)

  /** `triggerAll()`. */
  function TriggeredAll(s: Sections): Sections {
    Sections(true, true, true, true, true, true, true, true, true, s.buyForm)
  }

  /** `triggerAll` reveals all nine sections, leaves the buy form as it was, and a second call
      changes nothing. */
  lemma TriggerAllIdempotent(s: Sections)
    ensures var t := TriggeredAll(s);
      && t.cta && t.social && t.productImage && t.benefits && t.objections
      && t.docs && t.guarantee && t.quality && t.transform
      && t.buyForm == s.buyForm
      && TriggeredAll(t) == t
  {
  }

  // ---------------------------------------------------------------------------------------
  // The page as an object

  /** The `Home` component's state and the stored orders. */
  class HomePage {
    var order: OrderForm
    var formSubmitted: bool
    var sections: Sections
    var hasTriggered: bool
    var orders: seq<Order>

    constructor (stored: seq<Order>)
      ensures order == EmptyForm && !formSubmitted && sections == Hidden && !hasTriggered
      ensures orders == stored
    {
      order := EmptyForm;
      formSubmitted := false;
      sections := Hidden;
      hasTriggered := false;
      orders := stored;
    }

    method HandleChange(c: Change)
      modifies this`order
      ensures order == Changed(old(order), c)
    {
      order := Changed(order, c);
    }

    /** `handleSubmit`: returns the alert shown when the form is refused; on success stores the
        new record and shows the confirmation. */
    method HandleSubmit(validPhone: string -> bool, now: nat, submittedAt: string, packingAt: string, suffix: string)
      returns (alert: Option<string>)
      modifies this`order, this`formSubmitted, this`orders
      ensures var r := Submitted(old(order), validPhone, old(orders), now, submittedAt, packingAt, suffix);
        && (r.Refused? ==> alert == Some(r.reason.Alert()) && order == old(order)
                           && formSubmitted == old(formSubmitted) && orders == old(orders))
        && (r.Accepted? ==> alert == None && order == r.form && formSubmitted && orders == r.orders)
    {
      var sanitized := Sanitized(order);
      var refusal := Validate(sanitized, validPhone);
      if refusal.Some? {
        assert Submitted(order, validPhone, orders, now, submittedAt, packingAt, suffix) == Refused(refusal.value);
        return Some(refusal.value.Alert());
      }
      var record := NewOrder(sanitized, now, submittedAt, packingAt, suffix);
      assert Submitted(order, validPhone, orders, now, submittedAt, packingAt, suffix)
        == Accepted(record, orders + [record], order.(orderId := Some(record.id)));
      orders := orders + [record];
      order := order.(orderId := Some(record.id));
      formSubmitted := true;
      alert := None;
    }

    method TriggerAll()
      modifies this`sections
      ensures sections == TriggeredAll(old(sections))
    {
      sections := sections.(cta := true, social := true, productImage := true, benefits := true,
                            objections := true, docs := true, guarantee := true, quality := true,
                            transform := true);
    }

    /** `handleTimeUpdate`, given whether playback has reached half the duration: the sections
        are revealed once. */
    method HandleTimeUpdate(reachedHalfway: bool)
      modifies this`sections, this`hasTriggered
      ensures reachedHalfway && !old(hasTriggered) ==> sections == TriggeredAll(old(sections)) && hasTriggered
      ensures !(reachedHalfway && !old(hasTriggered)) ==> sections == old(sections) && hasTriggered == old(hasTriggered)
    {
      if reachedHalfway && !hasTriggered {
        TriggerAll();
        hasTriggered := true;
      }
    }

    /** `handleEnded`: the end of the video always reveals the sections. */
    method HandleEnded()
      modifies this`sections
      ensures sections == TriggeredAll(old(sections))
    {
      TriggerAll();
    }

    method OpenBuyForm()
      modifies this`sections
      ensures sections == old(sections).(buyForm := true)
    {
      sections := sections.(buyForm := true);
    }

    /** The form's Cancel button: hides the form and keeps what was typed. */
    method CancelBuyForm()
      modifies this`sections
      ensures sections == old(sections).(buyForm := false)
    {
      sections := sections.(buyForm := false);
    }

    /** The confirmation's Close button: hides the form and resets it. */
    method CloseConfirmation()
      modifies this`sections, this`formSubmitted, this`order
      ensures sections == old(sections).(buyForm := false) && !formSubmitted && order == EmptyForm
    {
      sections := sections.(buyForm := false);
      formSubmitted := false;
      order := EmptyForm;
    }
  }
}
