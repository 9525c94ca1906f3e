/** The admin dashboard: the status and search filters over the stored orders, the status
    update of one order, and the counts shown above the table.

    The stored orders are the dashboard's `orders` list; the 800 ms and 500 ms delays are
    collapsed into the calls, and the ISO time of a status change is a parameter. */
module AdminDashboard {
  import opened Wrappers
  import opened Text
  import opened Home

  /** The statuses the filter and the per-order select offer, in their order. */
  const StatusOptions: seq<string> := ["Packing", "Courier", "Road Map", "Delivery Hubs", "Delivered"]

  // ---------------------------------------------------------------------------------------
  // The filter effect

  /** The status filter: an empty selection keeps every order. */
  predicate StatusMatches(filterStatus: string, o: Order) {
    filterStatus == "" || o.status == filterStatus
  }

  /** The search box: the lower-cased term occurs in the lower-cased id or customer name; an
      empty term keeps every order. */
  predicate SearchMatches(searchId: string, o: Order) {
    var term := Lower(searchId);
    searchId == "" || Contains(Lower(o.id), term) || Contains(Lower(o.orderDetails.fullname), term)
  }

  /** The list the filter effect computes: the status filter when one is chosen, then the
      search filter when a term is typed. */
  function Filtered(orders: seq<Order>, filterStatus: string, searchId: string): seq<Order> {
    var byStatus := if filterStatus != "" then Filter(orders, (o: Order) => o.status == filterStatus) else orders;
    if searchId != "" then
      var term := Lower(searchId);
      Filter(byStatus, (o: Order) => Contains(Lower(o.id), term) || Contains(Lower(o.orderDetails.fullname), term))
    else byStatus
  }

  /** The two filters combine with AND: the shown list is the stored list with exactly the
      orders that pass both, in their stored order. */
  lemma FilteredIsConjunction(orders: seq<Order>, filterStatus: string, searchId: string)
    ensures Filtered(orders, filterStatus, searchId)
      == Filter(orders, (o: Order) => StatusMatches(filterStatus, o) && SearchMatches(searchId, o))
    ensures IsSubsequence(Filtered(orders, filterStatus, searchId), orders)
    ensures forall o :: o in Filtered(orders, filterStatus, searchId) <==>
      o in orders && StatusMatches(filterStatus, o) && SearchMatches(searchId, o)
  {
    var both := (o: Order) => StatusMatches(filterStatus, o) && SearchMatches(searchId, o);
    var term := Lower(searchId);
    var byStatus := (o: Order) => o.status == filterStatus;
    var bySearch := (o: Order) => Contains(Lower(o.id), term) || Contains(Lower(o.orderDetails.fullname), term);
    if filterStatus != "" && searchId != "" {
      FilterTwice(orders, byStatus, bySearch, both);
    } else if filterStatus != "" {
      FilterSame(orders, byStatus, both);
    } else if searchId != "" {
      FilterSame(orders, bySearch, both);
    } else {
      FilterAll(orders, both);
    }
    FilterKeepsOrder(orders, both);
  }

  // ---------------------------------------------------------------------------------------
  // Status updates

  /** `newStatus.toLowerCase().replace(' ', '')`: the timestamp key of a status. */
  function StatusKey(newStatus: string): string {
    ReplaceFirst(Lower(newStatus), " ", "")
  }

  /** A two-word status loses its space, and only the first one: `"Road Map"` is keyed
      `"roadmap"`, `"Delivery Hubs"` `"deliveryhubs"`. */
  lemma StatusKeyForTwoWords(first: string, rest: string)
    requires forall i :: 0 <= i < |first| ==> first[i] != ' '
    ensures StatusKey(first + " " + rest) == Lower(first) + Lower(rest)
  {
    LowerAroundSpace(first, rest);
    LowerAddsNoSpace(first);
    FirstSpaceRemoved(Lower(first), Lower(rest));
  }

  lemma LowerAroundSpace(first: string, rest: string)
    ensures Lower(first + " " + rest) == Lower(first) + " " + Lower(rest)
  {
    LowerConcat(first, " " + rest);
    LowerConcat(" ", rest);
    assert Lower(" ") == " ";
    assert first + " " + rest == first + (" " + rest);
    assert Lower(first) + (" " + Lower(rest)) == Lower(first) + " " + Lower(rest);
  }

  lemma LowerAddsNoSpace(w: string)
    requires forall i :: 0 <= i < |w| ==> w[i] != ' '
    ensures forall i :: 0 <= i < |Lower(w)| ==> Lower(w)[i] != ' '
  {
    forall i | 0 <= i < |w|
      ensures Lower(w)[i] != ' '
    {
      assert Lower(w)[i] == LowerChar(w[i]);
    }
  }

  lemma FirstSpaceRemoved(a: string, b: string)
    requires forall i :: 0 <= i < |a| ==> a[i] != ' '
    ensures ReplaceFirst(a + " " + b, " ", "") == a + b
  {
    IndexOfFirstOccurrence(a, b, ' ');
    var s := a + " " + b;
    assert s[..|a|] == a && s[|a| + 1..] == b;
  }

  /** The example of the status select: "Road Map" is stored under "roadmap". */
  lemma RoadMapKey()
    ensures StatusKey("Road Map") == "roadmap"
  {
    var first, rest := "Road", "Map";
    assert first + " " + rest == "Road Map";
    StatusKeyForTwoWords(first, rest);
    assert Lower(first) == "road";
    assert Lower(rest) == "map";
  }

  /** A single word has no space to lose: its key is the word lower-cased. */
  lemma StatusKeyForOneWord(word: string)
    requires forall i :: 0 <= i < |word| ==> word[i] != ' '
    ensures StatusKey(word) == Lower(word)
  {
    LowerAddsNoSpace(word);
    NoCharNoContains(Lower(word), ' ');
  }

  /** In `a + [c] + b`, where `a` does not hold `c`, the first `c` is the one after `a`. */
  lemma {:induction false} IndexOfFirstOccurrence(a: string, b: string, c: char)
    requires forall i :: 0 <= i < |a| ==> a[i] != c
    ensures IndexOf(a + [c] + b, [c]) == Some(|a|)
  {
    var s := a + [c] + b;
    if a != [] {
      assert s[1..] == a[1..] + [c] + b;
      IndexOfFirstOccurrence(a[1..], b, c);
      assert s[..1] != [c] by {
        assert s[..1][0] == a[0];
      }
    } else {
      assert s[..1] == [c];
    }
  }

  /** A string without the character `c` does not contain `[c]`. */
  lemma {:induction false} NoCharNoContains(s: string, c: char)
    requires forall i :: 0 <= i < |s| ==> s[i] != c
    ensures !Contains(s, [c])
  {
    if s != [] {
      assert s[..1][0] == s[0];
      NoCharNoContains(s[1..], c);
    }
  }

  /** The copy of `o` after a change of status at time `at`. */
  function Updated(o: Order, newStatus: string, at: string): Order {
    o.(status := newStatus, timestamps := o.timestamps[StatusKey(newStatus) := at])
  }

  /** `orders.map(...)` in `updateOrderStatus`: every order with the id gets the new status and
      the new timestamp, every other order is kept. */
  function StatusUpdated(orders: seq<Order>, orderId: string, newStatus: string, at: string): (r: seq<Order>)
    ensures |r| == |orders|
  {
    seq(|orders|, i requires 0 <= i < |orders| => if orders[i].id == orderId then Updated(orders[i], newStatus, at) else orders[i])
  }

  /** The update keeps the length and every order with a different id, sets the status of the
      matching order, and adds or overwrites exactly one timestamp key. */
  lemma StatusUpdateTouchesOnlyItsOrder(orders: seq<Order>, orderId: string, newStatus: string, at: string, i: nat)
    requires i < |orders|
    ensures var r := StatusUpdated(orders, orderId, newStatus, at);
      && (orders[i].id != orderId ==> r[i] == orders[i])
      && (orders[i].id == orderId ==>
            && r[i].status == newStatus && r[i].id == orders[i].id
            && r[i].trackingNumber == orders[i].trackingNumber && r[i].courier == orders[i].courier
            && r[i].orderDetails == orders[i].orderDetails
            && r[i].timestamps.Keys == orders[i].timestamps.Keys + {StatusKey(newStatus)}
            && r[i].timestamps[StatusKey(newStatus)] == at
            && forall k :: k in orders[i].timestamps && k != StatusKey(newStatus) ==>
                 r[i].timestamps[k] == orders[i].timestamps[k])
  {
  }

  /** The update keeps the ids in place, so the set of orders found by id is unchanged. */
  lemma StatusUpdateKeepsIds(orders: seq<Order>, orderId: string, newStatus: string, at: string)
    ensures var r := StatusUpdated(orders, orderId, newStatus, at);
      forall i :: 0 <= i < |orders| ==> r[i].id == orders[i].id
  {
  }

  // ---------------------------------------------------------------------------------------
  // Counts

  /** The four stat cards. */
  datatype Stats = Stats(total: nat, active: nat, delivered: nat, pending: nat)

  function StatsOf(orders: seq<Order>): Stats {
    Stats(|orders|,
          |Filter(orders, (o: Order) => o.status != "Delivered")|,
          |Filter(orders, (o: Order) => o.status == "Delivered")|,
          |Filter(orders, (o: Order) => o.status == "Packing")|)
  }

  /** Every order is either delivered or active, and the pending ones are among the active
      ones: active + delivered = total, pending ≤ active. */
  lemma StatsAddUp(orders: seq<Order>)
    ensures var st := StatsOf(orders);
      && st.active + st.delivered == st.total
      && st.pending <= st.active
  {
    var delivered := (o: Order) => o.status == "Delivered";
    var active := (o: Order) => o.status != "Delivered";
    var packing := (o: Order) => o.status == "Packing";
    FilterSplits(orders, delivered, active);
    var both := (o: Order) => active(o) && packing(o);
    FilterTwice(orders, active, packing, both);
    FilterSame(orders, both, packing);
  }

  // ---------------------------------------------------------------------------------------
  // The dashboard as an object

  /** The dashboard's state. */
  class Dashboard {
    var orders: seq<Order>
    var filteredOrders: seq<Order>
    var filterStatus: string
    var searchId: string
    var isLoading: bool
    var updatingOrderId: Option<string>
    /** `localStorage['orders']`. */
    var storage: seq<Order>

    /** After every handler the table shows the stored list through both filters. */
    predicate Synced()
      reads this
    {
      filteredOrders == Filtered(orders, filterStatus, searchId)
    }

    constructor (stored: seq<Order>)
      ensures orders == [] && filteredOrders == [] && filterStatus == "" && searchId == ""
      ensures isLoading && updatingOrderId == None && storage == stored
    {
      orders := [];
      filteredOrders := [];
      filterStatus := "";
      searchId := "";
      isLoading := true;
      updatingOrderId := None;
      storage := stored;
    }

    /** The filter effect, run whenever `orders`, the status filter or the search term change. */
    method ApplyFilters()
      modifies this`filteredOrders
      ensures Synced()
    {
      var status, search := filterStatus, searchId;
      var filtered := orders;
      if status != "" {
        filtered := Filter(filtered, (o: Order) => o.status == status);
      }
      if search != "" {
        var term := Lower(search);
        filtered := Filter(filtered, (o: Order) => Contains(Lower(o.id), term) || Contains(Lower(o.orderDetails.fullname), term));
      }
      filteredOrders := filtered;
    }

    /** `loadOrders`: reads the stored orders, shows them, and the filter effect follows. */
    method LoadOrders()
      modifies this`orders, this`filteredOrders, this`isLoading
      ensures orders == storage && !isLoading && Synced()
    {
      isLoading := true;
      orders := storage;
      filteredOrders := storage;
      isLoading := false;
      ApplyFilters();
    }

    method SetFilterStatus(status: string)
      modifies this`filterStatus, this`filteredOrders
      ensures filterStatus == status && Synced()
    {
      filterStatus := status;
      ApplyFilters();
    }

    method SetSearchId(text: string)
      modifies this`searchId, this`filteredOrders
      ensures searchId == text && Synced()
    {
      searchId := text;
      ApplyFilters();
    }

    /** `updateOrderStatus`: updates the orders with the id, writes the list back to storage,
        clears the updating marker, and the filter effect follows. */
    method UpdateOrderStatus(orderId: string, newStatus: string, at: string)
      modifies this`orders, this`storage, this`updatingOrderId, this`filteredOrders
      ensures orders == StatusUpdated(old(orders), orderId, newStatus, at)
      ensures storage == orders && updatingOrderId == None && Synced()
    {
      updatingOrderId := Some(orderId);
      orders := StatusUpdated(orders, orderId, newStatus, at);
      storage := orders;
      updatingOrderId := None;
      ApplyFilters();
    }
  }
}
