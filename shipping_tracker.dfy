/** The public tracking page: normalising the typed order id, finding the stored order, the
    status table that describes where a parcel is, and the page state a search writes.

    The stored orders (`localStorage['orders']`) are a parameter. The 100 ms timer before the
    automatic search from a `?id=` link is collapsed into the call. */
module ShippingTracker {
  import opened Wrappers
  import opened Text
  import opened Home

  // ---------------------------------------------------------------------------------------
  // Order-id normalisation

  /** The typed id, trimmed, with `ORD-` put in front unless it is already there. */
  function NormalizeOrderId(input: string): (r: string)
    ensures StartsWith(r, OrderIdPrefix)
  {
    var t := Trim(input);
    if StartsWith(t, OrderIdPrefix) then t else OrderIdPrefix + t
  }

  /** The normalised id is trimmed: `ORD-` starts with a letter, and the end is either the
      end of the trimmed input or the prefix's `-`. */
  lemma NormalizedIsTrimmed(input: string)
    ensures IsTrimmed(NormalizeOrderId(input))
  {
    var t := Trim(input);
    if !StartsWith(t, OrderIdPrefix) {
      var r := OrderIdPrefix + t;
      assert r[0] == 'O';
      assert r[|r| - 1] == if t == [] then '-' else t[|t| - 1];
    }
  }

  /** Normalising twice gives the same id as normalising once. */
  lemma NormalizeIdempotent(input: string)
    ensures NormalizeOrderId(NormalizeOrderId(input)) == NormalizeOrderId(input)
  {
    var r := NormalizeOrderId(input);
    NormalizedIsTrimmed(input);
    TrimmedIsFixpoint(r);
  }

  /** An id typed with or without its prefix, and with surrounding whitespace, normalises to
      the same id: the trimmed text if it already starts with `ORD-`, else `ORD-` and the text. */
  lemma NormalizeCases(input: string)
    ensures StartsWith(Trim(input), OrderIdPrefix) ==> NormalizeOrderId(input) == Trim(input)
    ensures !StartsWith(Trim(input), OrderIdPrefix) ==> NormalizeOrderId(input) == OrderIdPrefix + Trim(input)
  {
  }

  /** An id typed as bare digits gets the prefix put in front. */
  lemma DigitsGetPrefix(digits: string)
    requires digits != [] && forall i :: 0 <= i < |digits| ==> IsDigit(digits[i])
    ensures NormalizeOrderId(digits) == OrderIdPrefix + digits
  {
    assert IsDigit(digits[0]) && IsDigit(digits[|digits| - 1]);
    TrimmedIsFixpoint(digits);
    assert !StartsWith(digits, OrderIdPrefix) by {
      if |OrderIdPrefix| <= |digits| {
        assert digits[..|OrderIdPrefix|][0] != OrderIdPrefix[0];
      }
    }
  }

  /** The link the confirmation and the admin table build, `/tracker?id=` followed by the id
      without its `ORD-`, leads back to the same order id. */
  lemma LinkRoundTrip(now: nat)
    ensures NormalizeOrderId(TrackerLinkId(OrderId(now))) == OrderId(now)
  {
    var digits := NatToString(now);
    NatToStringDigits(now);
    assert TrackerLinkId(OrderId(now)) == digits by {
      var id := OrderId(now);
      assert id[..|OrderIdPrefix|] == OrderIdPrefix;
      assert id[|OrderIdPrefix|..] == digits;
    }
    DigitsGetPrefix(digits);
  }

  // ---------------------------------------------------------------------------------------
  // Lookup

  /** `orders.find(o => o.id === id)`, as the position of the first match. */
  function FirstWithId(orders: seq<Order>, id: string): (r: Option<nat>)
    ensures r.Some? ==> r.value < |orders| && orders[r.value].id == id
    ensures r.None? <==> forall i :: 0 <= i < |orders| ==> orders[i].id != id
  {
    if orders == [] then None
    else if orders[0].id == id then Some(0)
    else match FirstWithId(orders[1..], id)
      case None => None
      case Some(k) => Some(k + 1)
  }

  /** No order before the one found has the id. */
  lemma {:induction false} FirstWithIdIsFirst(orders: seq<Order>, id: string)
    requires FirstWithId(orders, id).Some?
    ensures forall j :: 0 <= j < FirstWithId(orders, id).value ==> orders[j].id != id
  {
    if orders[0].id != id {
      FirstWithIdIsFirst(orders[1..], id);
    }
  }

  // ---------------------------------------------------------------------------------------
  // The status table

  /** Where the parcel is, and when it is expected, for an order's status and courier. */
  datatype StatusInfo = StatusInfo(location: string, estimatedDelivery: string)

  function Describe(status: string, courier: string): StatusInfo {
    if status == "Packing" then StatusInfo("Warehouse - Preparing Package", "2-3 business days")
    else if status == "Courier" then StatusInfo("Picked up by " + courier, "1-2 business days")
    else if status == "Road Map" then StatusInfo("In Transit - " + courier, "1-2 business days")
    else if status == "Delivery Hubs" then StatusInfo("Arrived at Local Delivery Hub", "Today")
    else if status == "Delivered" then StatusInfo("Delivered to recipient", "Delivered")
    else StatusInfo("Unknown", "Pending")
  }

  /** The statuses the table knows. */
  predicate KnownStatus(status: string) {
    status in {"Packing", "Courier", "Road Map", "Delivery Hubs", "Delivered"}
  }

  /** Every status outside the five known ones gets the default row, and only those do: the
      known rows never say "Pending". */
  lemma DefaultRowIffUnknown(status: string, courier: string)
    ensures Describe(status, courier) == StatusInfo("Unknown", "Pending") <==> !KnownStatus(status)
    ensures Describe(status, courier).estimatedDelivery == "Pending" <==> !KnownStatus(status)
  {
  }

  /** The location names the courier exactly for the two in-transit statuses. */
  lemma CourierNamedInTransit(status: string, courier: string)
    ensures status == "Courier" ==> Describe(status, courier).location == "Picked up by " + courier
    ensures status == "Road Map" ==> Describe(status, courier).location == "In Transit - " + courier
    ensures status != "Courier" && status != "Road Map" ==>
      Describe(status, courier) == Describe(status, "")
  {
  }

  // ---------------------------------------------------------------------------------------
  // A search

  /** The `trackingResult` object a successful search shows. */
  datatype TrackingResult = TrackingResult(
    orderId: string, trackingNumber: string, courier: string, status: string,
    location: string, estimatedDelivery: string, orderDetails: OrderForm)

  const NotFound: string := "Order not found. Please check your Order ID."

  /** `performSearch`'s outcome: the result for the first stored order with the normalised id,
      or the not-found message. */
  function Search(orders: seq<Order>, input: string): (r: Result<TrackingResult>) {
    match FirstWithId(orders, NormalizeOrderId(input))
    case None => Err(NotFound)
    case Some(i) =>
      var o := orders[i];
      var info := Describe(o.status, o.courier);
      Ok(TrackingResult(o.id, o.trackingNumber, o.courier, o.status, info.location, info.estimatedDelivery, o.orderDetails))
  }

  /** A search fails exactly when no stored order has the normalised id; a successful one
      describes the first such order, copying its id, tracking number, courier, status and
      details, and adding the table's location and estimate. */
  lemma SearchOutcome(orders: seq<Order>, input: string)
    ensures var id := NormalizeOrderId(input);
      && (Search(orders, input).Err? <==> forall i :: 0 <= i < |orders| ==> orders[i].id != id)
      && (Search(orders, input).Err? ==> Search(orders, input).message == NotFound)
    ensures var id := NormalizeOrderId(input);
      Search(orders, input).Ok? ==>
        exists i :: 0 <= i < |orders| && Describes(Search(orders, input).value, orders[i]) && orders[i].id == id
          && (forall j :: 0 <= j < i ==> orders[j].id != id)
  {
    var id := NormalizeOrderId(input);
    if FirstWithId(orders, id).Some? {
      FirstWithIdIsFirst(orders, id);
      var i := FirstWithId(orders, id).value;
      assert Describes(Search(orders, input).value, orders[i]);
    }
  }

  /** `r` is the description of the stored order `o`. */
  predicate Describes(r: TrackingResult, o: Order) {
    var info := Describe(o.status, o.courier);
    && r.orderId == o.id && r.trackingNumber == o.trackingNumber && r.courier == o.courier
    && r.status == o.status && r.orderDetails == o.orderDetails
    && r.location == info.location && r.estimatedDelivery == info.estimatedDelivery
  }

  /** Real-time tracking runs exactly while the result shows an order on the road. */
  function IsRealTimeActive(result: Option<TrackingResult>): (b: bool)
    ensures b <==> result.Some? && result.value.status == "Road Map"
  {
    match result
    case None => false
    case Some(r) => r.status == "Road Map"
  }

  /** The tracking number handed to the polling hook (`trackingResult?.trackingNumber`). */
  function HookTrackingNumber(result: Option<TrackingResult>): (tn: Option<string>)
    ensures tn.Some? <==> result.Some?
    ensures tn.Some? ==> tn.value == result.value.trackingNumber
  {
    match result
    case None => None
    case Some(r) => Some(r.trackingNumber)
  }

  /** Real-time tracking of a search's result is on exactly when the found order's status is
      "Road Map"; a failed search never turns it on. */
  lemma RealTimeOnlyOnTheRoad(orders: seq<Order>, input: string)
    ensures var r := Search(orders, input);
      IsRealTimeActive(if r.Ok? then Some(r.value) else None) <==>
        (exists i :: 0 <= i < |orders| && orders[i].id == NormalizeOrderId(input) && orders[i].status == "Road Map"
           && (forall j :: 0 <= j < i ==> orders[j].id != NormalizeOrderId(input)))
  {
    SearchOutcome(orders, input);
    var id := NormalizeOrderId(input);
    if FirstWithId(orders, id).Some? {
      FirstWithIdIsFirst(orders, id);
      var i := FirstWithId(orders, id).value;
      forall i' | 0 <= i' < |orders| && orders[i'].id == id && forall j :: 0 <= j < i' ==> orders[j].id != id
        ensures i' == i
      {
      }
    }
  }

  // ---------------------------------------------------------------------------------------
  // The page as an object

  /** The tracker page's state: the search box, the result shown and the error message. */
  class TrackerPage {
    var searchId: string
    var trackingResult: Option<TrackingResult>
    var error: string

    constructor ()
      ensures searchId == "" && trackingResult == None && error == ""
    {
      searchId := "";
      trackingResult := None;
      error := "";
    }

    /** `performSearch`: clears the error and the previous result, then shows the outcome. */
    method PerformSearch(orders: seq<Order>, input: string)
      modifies this`trackingResult, this`error
      ensures var r := Search(orders, input);
        && (r.Ok? ==> trackingResult == Some(r.value) && error == "")
        && (r.Err? ==> trackingResult == None && error == r.message)
    {
      error := "";
      trackingResult := None;
      var id := NormalizeOrderId(input);
      var found := FirstWithId(orders, id);
      if found.None? {
        error := NotFound;
        return;
      }
      var o := orders[found.value];
      var info := Describe(o.status, o.courier);
      trackingResult := Some(TrackingResult(o.id, o.trackingNumber, o.courier, o.status,
                                            info.location, info.estimatedDelivery, o.orderDetails));
    }

    /** Typing in the search box. */
    method TypeSearchId(text: string)
      modifies this`searchId
      ensures searchId == text
    {
      searchId := text;
    }

    /** The Track button searches for what the box holds. */
    method HandleSearch(orders: seq<Order>)
      modifies this`trackingResult, this`error
      ensures var r := Search(orders, searchId);
        && (r.Ok? ==> trackingResult == Some(r.value) && error == "")
        && (r.Err? ==> trackingResult == None && error == r.message)
    {
      PerformSearch(orders, searchId);
    }

    /** The effect on the `id` query parameter: a non-empty id fills the box and is searched. */
    method OnSearchParams(id: Option<string>, orders: seq<Order>)
      modifies this`searchId, this`trackingResult, this`error
      ensures (id.None? || id.value == "") ==> searchId == old(searchId) && trackingResult == old(trackingResult) && error == old(error)
      ensures id.Some? && id.value != "" ==>
        (var r := Search(orders, id.value);
         && searchId == id.value
         && (r.Ok? ==> trackingResult == Some(r.value) && error == "")
         && (r.Err? ==> trackingResult == None && error == r.message))
    {
      if id.Some? && id.value != "" {
        searchId := id.value;
        PerformSearch(orders, id.value);
      }
    }
  }
}
