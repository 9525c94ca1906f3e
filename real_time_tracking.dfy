/** The polling hook `useRealTimeTracking(trackingNumber, courier, isActive)`: a state machine
    over the hook's five pieces of React state, its interval handle and its retry counter.

    Every fetch is one atomic step whose reply is a parameter (`Ok(value)` when the mock
    resolves, `Err(message)` when it rejects with an error carrying `message`). Timers are
    explicit: the interval is a handle, and each retry armed by `setTimeout` is a pending
    timer that fires when the caller says so. */
module RealTimeTracking {
  import opened Wrappers
  import opened CourierApi

  /** `maxRetries`: automatic retries of the tracking fetch between two successes. */
  const MaxRetries: nat := 3
  /** `pollInterval`, in milliseconds. */
  const PollInterval: nat := 30000
  /** `retryDelay`, in milliseconds. */
  const TrackingRetryDelay: nat := 5000

  /** A `setInterval` registration: its handle and its period. */
  datatype Interval = Interval(handle: nat, period: nat)

  /** A `setTimeout(() => fetchTrackingData(), retryDelay)` that has not fired yet: the
      tracking number its closure captured, and its delay. */
  datatype RetryTimer = RetryTimer(trackingNumber: Option<string>, delay: nat)

  /** The hook's state between two events.
      - `trackingNumber`, `isActive`: the props of the last render.
      - `trackingData` … `isConnected`: the five `useState` values.
      - `interval`: `intervalRef.current`.
      - `live`: the handles of every interval registered and not yet cleared.
      - `nextHandle`: the handle the next `setInterval` returns.
      - `retryCount`: `retryCountRef.current`.
      - `retries`: the retry timers armed and not yet fired, oldest first. */
  datatype Hook = Hook(
    trackingNumber: Option<string>, isActive: bool,
    trackingData: Option<Snapshot>, realTimeLocation: Option<LiveLocation>,
    isLoading: bool, error: Option<string>, isConnected: bool,
    interval: Option<Interval>, live: set<nat>, nextHandle: nat,
    retryCount: nat, retries: seq<RetryTimer>)

  /** The state of the first render, before any effect runs. */
  function Initial(trackingNumber: Option<string>, isActive: bool): (h: Hook)
    ensures h.trackingData == None && h.realTimeLocation == None && h.error == None
    ensures !h.isLoading && !h.isConnected && h.retryCount == 0 && h.retries == []
    ensures h.interval == None && h.live == {}
  {
    Hook(trackingNumber, isActive, None, None, false, None, false, None, {}, 1, 0, [])
  }

  /** What holds between events: at most the held interval is registered, with the poll
      period; handles are positive (so a held one is truthy) and below `nextHandle`; the retry
      counter is within its bound; every armed retry carries a tracking number that passed the
      guard; and no tracking fetch is half done. */
  predicate Consistent(h: Hook) {
    && 1 <= h.nextHandle
    && h.live == (if h.interval.Some? then {h.interval.value.handle} else {})
    && (h.interval.Some? ==> 1 <= h.interval.value.handle < h.nextHandle && h.interval.value.period == PollInterval)
    && h.retryCount <= MaxRetries
    && (forall i :: 0 <= i < |h.retries| ==> Truthy(h.retries[i].trackingNumber) && h.retries[i].delay == TrackingRetryDelay)
    && !h.isLoading
  }

  lemma InitialConsistent(trackingNumber: Option<string>, isActive: bool)
    ensures Consistent(Initial(trackingNumber, isActive))
  {
  }

  // ---------------------------------------------------------------------------------------
  // The two fetches

  /** `fetchTrackingData` of a render whose tracking number was `tn`, run to completion with
      `reply`: nothing happens without a tracking number; otherwise the error is cleared and
      loading starts, then a success stores the snapshot, marks the hook connected and resets
      the retry counter, and a failure stores the message, marks it disconnected and, while
      the counter is below `MaxRetries`, counts one more retry and arms its timer; loading
      ends either way. */
  function TrackingFetched(h: Hook, tn: Option<string>, reply: Result<Snapshot>): (r: Hook)
    ensures !Truthy(tn) ==> r == h
    ensures r.trackingNumber == h.trackingNumber && r.isActive == h.isActive
    ensures r.realTimeLocation == h.realTimeLocation
    ensures r.interval == h.interval && r.live == h.live && r.nextHandle == h.nextHandle
    ensures Truthy(tn) ==> !r.isLoading
  {
    if !Truthy(tn) then h
    else
      var running := h.(isLoading := true, error := None);
      match reply
      case Ok(data) =>
        running.(trackingData := Some(data), isConnected := true, retryCount := 0, isLoading := false)
      case Err(message) =>
        var failed := running.(error := Some(message), isConnected := false, isLoading := false);
        if h.retryCount < MaxRetries then
          failed.(retryCount := h.retryCount + 1, retries := h.retries + [RetryTimer(tn, TrackingRetryDelay)])
        else failed
  }

  /** `fetchRealTimeLocation` of the current render, run to completion with `reply`. */
  function LocationFetched(h: Hook, reply: Result<LiveLocation>): (r: Hook)
    ensures !Truthy(h.trackingNumber) || !h.isActive ==> r == h
    ensures r.trackingData == h.trackingData && r.error == h.error && r.isLoading == h.isLoading
    ensures r.retryCount == h.retryCount && r.retries == h.retries
    ensures r.interval == h.interval && r.live == h.live && r.nextHandle == h.nextHandle
  {
    if !Truthy(h.trackingNumber) || !h.isActive then h
    else
      match reply
      case Ok(location) => h.(realTimeLocation := Some(location), isConnected := true)
      case Err(_) => h.(isConnected := false)
  }

  /** A successful tracking fetch stores exactly the snapshot it received, marks the hook
      connected, clears the error and resets the retry counter; nothing else changes. */
  lemma TrackingSuccess(h: Hook, tn: Option<string>, data: Snapshot)
    requires Truthy(tn) && !h.isLoading
    ensures TrackingFetched(h, tn, Ok(data)) ==
      h.(trackingData := Some(data), isConnected := true, retryCount := 0, error := None)
  {
  }

  /** A failed tracking fetch stores the error and marks the hook disconnected, keeping the
      previous snapshot; it arms one retry timer, carrying the same tracking number, exactly
      when the counter was below `MaxRetries`, and the counter then grows by one, never
      past the bound. */
  lemma TrackingFailure(h: Hook, tn: Option<string>, message: string)
    requires Truthy(tn) && h.retryCount <= MaxRetries
    ensures var r := TrackingFetched(h, tn, Err(message));
      && r.error == Some(message) && !r.isConnected && !r.isLoading
      && r.trackingData == h.trackingData
      && r.retryCount <= MaxRetries
      && (h.retryCount < MaxRetries ==>
            r.retryCount == h.retryCount + 1 && r.retries == h.retries + [RetryTimer(tn, TrackingRetryDelay)])
      && (h.retryCount == MaxRetries ==> r.retryCount == MaxRetries && r.retries == h.retries)
  {
  }

  /** A failed location fetch marks the hook disconnected and changes nothing else: in
      particular it leaves the error and the last known location alone. */
  lemma LocationFailureKeepsError(h: Hook, message: string)
    requires Truthy(h.trackingNumber) && h.isActive
    ensures LocationFetched(h, Err(message)) == h.(isConnected := false)
  {
  }

  /** The failed tracking fetches `messages`, one after the other, for the same tracking number. */
  function Failures(h: Hook, tn: Option<string>, messages: seq<string>): Hook
    decreases |messages|
  {
    if messages == [] then h
    else Failures(TrackingFetched(h, tn, Err(messages[0])), tn, messages[1..])
  }

  function Min(a: nat, b: nat): nat {
    if a <= b then a else b
  }

  /** A run of failures counted from retry count `c` arms `Min(c + n, MaxRetries) - c` timers
      and leaves the counter at `Min(c + n, MaxRetries)`; the timers armed before stay first. */
  lemma {:induction false} FailuresArmBoundedRetries(h: Hook, tn: Option<string>, messages: seq<string>)
    requires Truthy(tn) && h.retryCount <= MaxRetries
    ensures var r := Failures(h, tn, messages);
      && r.retryCount == Min(h.retryCount + |messages|, MaxRetries)
      && |r.retries| == |h.retries| + r.retryCount - h.retryCount
      && r.retries[..|h.retries|] == h.retries
      && (messages != [] ==> r.error == Some(messages[|messages| - 1]) && !r.isConnected)
    decreases |messages|
  {
    if messages != [] {
      var h1 := TrackingFetched(h, tn, Err(messages[0]));
      TrackingFailure(h, tn, messages[0]);
      FailuresArmBoundedRetries(h1, tn, messages[1..]);
      var r := Failures(h1, tn, messages[1..]);
      assert r.retries[..|h1.retries|] == h1.retries;
      assert h1.retries[..|h.retries|] == h.retries;
      assert r.retries[..|h.retries|] == r.retries[..|h1.retries|][..|h.retries|];
      if |messages| > 1 {
        assert messages[1..][|messages[1..]| - 1] == messages[|messages| - 1];
      }
    }
  }

  /** After a success the counter is zero, so however many failures follow, at most
      `MaxRetries` retry timers are armed before the next success. */
  lemma AtMostThreeRetriesBetweenSuccesses(h: Hook, tn: Option<string>, data: Snapshot, messages: seq<string>)
    requires Truthy(tn) && !h.isLoading
    ensures var s := TrackingFetched(h, tn, Ok(data));
      |Failures(s, tn, messages).retries| <= |s.retries| + MaxRetries
  {
    TrackingSuccess(h, tn, data);
    FailuresArmBoundedRetries(TrackingFetched(h, tn, Ok(data)), tn, messages);
  }

  // ---------------------------------------------------------------------------------------
  // Starting and stopping

  /** `startPolling()`: nothing happens while an interval is held; otherwise both fetches run
      and an interval with the poll period is registered and held. The location fetch settles
      first, because the mock tracking fetch waits 500 ms before resolving. */
  function PollingStarted(h: Hook, tracking: Result<Snapshot>, location: Result<LiveLocation>): (r: Hook)
    ensures h.interval.Some? ==> r == h
  {
    if h.interval.Some? then h
    else
      var fetched := TrackingFetched(LocationFetched(h, location), h.trackingNumber, tracking);
      fetched.(interval := Some(Interval(h.nextHandle, PollInterval)),
               live := fetched.live + {h.nextHandle}, nextHandle := h.nextHandle + 1)
  }

  /** `stopPolling()`: clears and forgets the held interval, if any. */
  function PollingStopped(h: Hook): (r: Hook)
    ensures h.interval.None? ==> r == h
  {
    if h.interval.Some? then h.(interval := None, live := h.live - {h.interval.value.handle}) else h
  }

  /** Starting when no interval is held registers exactly one new interval, with a handle no
      earlier registration used, and afterwards that one is the only interval registered. */
  lemma StartRegistersOneInterval(h: Hook, tracking: Result<Snapshot>, location: Result<LiveLocation>)
    requires Consistent(h) && h.interval.None?
    ensures var r := PollingStarted(h, tracking, location);
      && r.interval == Some(Interval(h.nextHandle, PollInterval))
      && r.live == {h.nextHandle} && h.nextHandle !in h.live
  {
  }

  /** A second `startPolling` while the first one's interval is held changes nothing, so
      repeated starts never create a second timer. */
  lemma StartIsGuarded(h: Hook, t1: Result<Snapshot>, l1: Result<LiveLocation>, t2: Result<Snapshot>, l2: Result<LiveLocation>)
    ensures var once := PollingStarted(h, t1, l1);
      PollingStarted(once, t2, l2) == once
  {
  }

  /** After `stopPolling` no interval is held or registered, and stopping again changes nothing. */
  lemma StopIsIdempotent(h: Hook)
    requires Consistent(h)
    ensures PollingStopped(h).interval == None && PollingStopped(h).live == {}
    ensures PollingStopped(PollingStopped(h)) == PollingStopped(h)
    ensures PollingStopped(h) == h.(interval := None, live := {})
  {
  }

  // ---------------------------------------------------------------------------------------
  // Timer ticks, manual refresh, retries

  /** One tick of the held interval: it runs only the location fetch. */
  function Ticked(h: Hook, location: Result<LiveLocation>): Hook {
    if h.interval.Some? then LocationFetched(h, location) else h
  }

  /** `refresh()`: both fetches of the current render. */
  function Refreshed(h: Hook, tracking: Result<Snapshot>, location: Result<LiveLocation>): Hook {
    TrackingFetched(LocationFetched(h, location), h.trackingNumber, tracking)
  }

  function RemoveAt<T>(q: seq<T>, i: nat): (r: seq<T>)
    requires i < |q|
    ensures |r| == |q| - 1
    ensures forall j :: 0 <= j < i ==> r[j] == q[j]
    ensures forall j :: i <= j < |r| ==> r[j] == q[j + 1]
  {
    q[..i] + q[i + 1..]
  }

  /** The `index`-th pending retry timer fires: it leaves the pending list and runs the
      tracking fetch of the render that armed it, with the tracking number that render had.
      An index with no pending timer is no event at all. */
  function RetryFired(h: Hook, index: nat, tracking: Result<Snapshot>): Hook {
    if index < |h.retries| then
      TrackingFetched(h.(retries := RemoveAt(h.retries, index)), h.retries[index].trackingNumber, tracking)
    else h
  }

  /** A tick touches only the live location and the connection flag. */
  lemma TickOnlyFetchesLocation(h: Hook, location: Result<LiveLocation>)
    ensures var r := Ticked(h, location);
      r == h.(realTimeLocation := r.realTimeLocation, isConnected := r.isConnected)
  {
  }

  /** `refresh` runs both fetches and never touches the interval: the held interval, the
      registered intervals and the handle counter stay as they were. */
  lemma RefreshKeepsTimer(h: Hook, tracking: Result<Snapshot>, location: Result<LiveLocation>)
    ensures var r := Refreshed(h, tracking, location);
      && r.interval == h.interval && r.live == h.live && r.nextHandle == h.nextHandle
      && r == TrackingFetched(LocationFetched(h, location), h.trackingNumber, tracking)
  {
  }

  // ---------------------------------------------------------------------------------------
  // The `isActive` effect

  /** The effect body: start polling when active with a tracking number, stop otherwise. */
  function Effect(h: Hook, tracking: Result<Snapshot>, location: Result<LiveLocation>): Hook {
    if h.isActive && Truthy(h.trackingNumber) then PollingStarted(h, tracking, location)
    else PollingStopped(h)
  }

  /** Mounting: the first render, then its effect. */
  function Mounted(trackingNumber: Option<string>, isActive: bool,
                   tracking: Result<Snapshot>, location: Result<LiveLocation>): Hook
  {
    Effect(Initial(trackingNumber, isActive), tracking, location)
  }

  /** A re-render with the props `tn` and `active`. The effect's dependencies all derive from
      these two props, so with both unchanged nothing runs; otherwise the previous effect's
      cleanup stops polling and the effect runs again with the new props. */
  function Rerendered(h: Hook, tn: Option<string>, active: bool,
                      tracking: Result<Snapshot>, location: Result<LiveLocation>): Hook
  {
    if tn == h.trackingNumber && active == h.isActive then h
    else Effect(PollingStopped(h).(trackingNumber := tn, isActive := active), tracking, location)
  }

  /** Unmounting: the cleanups of both effects stop polling. */
  function Unmounted(h: Hook): Hook {
    PollingStopped(PollingStopped(h))
  }

  /** After the effect runs, an interval is held exactly when the hook is active with a
      tracking number. */
  lemma EffectPollsIffActive(h: Hook, tracking: Result<Snapshot>, location: Result<LiveLocation>)
    requires Consistent(h) && h.interval.None?
    ensures var r := Effect(h, tracking, location);
      r.interval.Some? <==> h.isActive && Truthy(h.trackingNumber)
  {
  }

  /** A re-render that changes the props always clears the interval held before it; then
      polling runs exactly when the new props are active with a tracking number. */
  lemma RerenderRestartsPolling(h: Hook, tn: Option<string>, active: bool,
                                tracking: Result<Snapshot>, location: Result<LiveLocation>)
    requires Consistent(h)
    requires tn != h.trackingNumber || active != h.isActive
    ensures var r := Rerendered(h, tn, active, tracking, location);
      && (h.interval.Some? ==> h.interval.value.handle !in r.live)
      && (r.interval.Some? <==> active && Truthy(tn))
      && r.trackingNumber == tn && r.isActive == active
  {
  }

  /** Unmounting leaves no interval registered. */
  lemma UnmountClearsInterval(h: Hook)
    requires Consistent(h)
    ensures Unmounted(h).interval == None && Unmounted(h).live == {}
    ensures Unmounted(h) == PollingStopped(h)
  {
  }

  /** Stopping polling, deactivating or unmounting does not cancel the armed retry timers,
      and no reply is checked against the props it was requested for: a retry that fires
      after polling stopped, while the component is still mounted, stores its snapshot and
      marks the hook connected although no interval runs. (After an unmount the timer still
      fires, but React discards the state updates it makes.) */
  lemma RetryOutlivesStop(h: Hook, data: Snapshot)
    requires Consistent(h) && h.retries != []
    ensures PollingStopped(h).retries == h.retries && Unmounted(h).retries == h.retries
    ensures var r := RetryFired(PollingStopped(h), 0, Ok(data));
      r.trackingData == Some(data) && r.isConnected && r.interval == None
  {
  }

  // ---------------------------------------------------------------------------------------
  // Runs of events

  datatype Event =
    | Render(trackingNumber: Option<string>, isActive: bool, tracking: Result<Snapshot>, location: Result<LiveLocation>)
    | Tick(location: Result<LiveLocation>)
    | RetryFires(index: nat, tracking: Result<Snapshot>)
    | Refresh(tracking: Result<Snapshot>, location: Result<LiveLocation>)
    | Start(tracking: Result<Snapshot>, location: Result<LiveLocation>)
    | Stop
    | Unmount

  function Step(h: Hook, e: Event): Hook {
    match e
    case Render(tn, active, tracking, location) => Rerendered(h, tn, active, tracking, location)
    case Tick(location) => Ticked(h, location)
    case RetryFires(index, tracking) => RetryFired(h, index, tracking)
    case Refresh(tracking, location) => Refreshed(h, tracking, location)
    case Start(tracking, location) => PollingStarted(h, tracking, location)
    case Stop => PollingStopped(h)
    case Unmount => Unmounted(h)
  }

  function Run(h: Hook, events: seq<Event>): Hook
    decreases |events|
  {
    if events == [] then h else Run(Step(h, events[0]), events[1..])
  }

  lemma TrackingFetchedConsistent(h: Hook, tn: Option<string>, reply: Result<Snapshot>)
    requires Consistent(h)
    ensures Consistent(TrackingFetched(h, tn, reply))
  {
    var r := TrackingFetched(h, tn, reply);
    if Truthy(tn) && reply.Err? && h.retryCount < MaxRetries {
      assert r.retries == h.retries + [RetryTimer(tn, TrackingRetryDelay)];
    }
  }

  lemma LocationFetchedConsistent(h: Hook, reply: Result<LiveLocation>)
    requires Consistent(h)
    ensures Consistent(LocationFetched(h, reply))
  {
  }

  lemma StartedConsistent(h: Hook, tracking: Result<Snapshot>, location: Result<LiveLocation>)
    requires Consistent(h)
    ensures Consistent(PollingStarted(h, tracking, location))
  {
    if h.interval.None? {
      LocationFetchedConsistent(h, location);
      TrackingFetchedConsistent(LocationFetched(h, location), h.trackingNumber, tracking);
    }
  }

  lemma RetryFiredConsistent(h: Hook, index: nat, tracking: Result<Snapshot>)
    requires Consistent(h)
    ensures Consistent(RetryFired(h, index, tracking))
  {
    if index < |h.retries| {
      var rest := h.(retries := RemoveAt(h.retries, index));
      assert Consistent(rest);
      TrackingFetchedConsistent(rest, h.retries[index].trackingNumber, tracking);
    }
  }

  lemma StepKeepsConsistent(h: Hook, e: Event)
    requires Consistent(h)
    ensures Consistent(Step(h, e))
  {
    match e
    case Render(tn, active, tracking, location) =>
      var s := PollingStopped(h).(trackingNumber := tn, isActive := active);
      StartedConsistent(s, tracking, location);
    case Tick(location) =>
      LocationFetchedConsistent(h, location);
    case RetryFires(index, tracking) =>
      RetryFiredConsistent(h, index, tracking);
    case Refresh(tracking, location) =>
      LocationFetchedConsistent(h, location);
      TrackingFetchedConsistent(LocationFetched(h, location), h.trackingNumber, tracking);
    case Start(tracking, location) =>
      StartedConsistent(h, tracking, location);
    case Stop =>
    case Unmount =>
  }

  /** Whatever happens after mounting, the state stays consistent: in particular at most one
      interval is ever registered at a time and the retry counter never exceeds `MaxRetries`. */
  lemma {:induction false} RunKeepsConsistent(h: Hook, events: seq<Event>)
    requires Consistent(h)
    ensures Consistent(Run(h, events))
    ensures |Run(h, events).live| <= 1 && Run(h, events).retryCount <= MaxRetries
    decreases |events|
  {
    if events != [] {
      StepKeepsConsistent(h, events[0]);
      RunKeepsConsistent(Step(h, events[0]), events[1..]);
    }
  }

  lemma MountedConsistent(trackingNumber: Option<string>, isActive: bool,
                          tracking: Result<Snapshot>, location: Result<LiveLocation>, events: seq<Event>)
    ensures Consistent(Run(Mounted(trackingNumber, isActive, tracking, location), events))
  {
    RunKeepsConsistent(Mounted(trackingNumber, isActive, tracking, location), events);
  }

  // ---------------------------------------------------------------------------------------
  // The hook as an object

  /** The mutable hook instance: React state and refs as fields, each handler a method that
      updates them in the order the source does. */
  class PollingHook {
    var trackingNumber: Option<string>
    var isActive: bool
    var trackingData: Option<Snapshot>
    var realTimeLocation: Option<LiveLocation>
    var isLoading: bool
    var error: Option<string>
    var isConnected: bool
    var interval: Option<Interval>
    var live: set<nat>
    var nextHandle: nat
    var retryCount: nat
    var retries: seq<RetryTimer>

    function State(): Hook
      reads this
    {
      Hook(trackingNumber, isActive, trackingData, realTimeLocation, isLoading, error, isConnected,
           interval, live, nextHandle, retryCount, retries)
    }

    /** The first render, before its effect. */
    constructor (trackingNumber: Option<string>, isActive: bool)
      ensures State() == Initial(trackingNumber, isActive)
    {
      this.trackingNumber := trackingNumber;
      this.isActive := isActive;
      trackingData := None;
      realTimeLocation := None;
      isLoading := false;
      error := None;
      isConnected := false;
      interval := None;
      live := {};
      nextHandle := 1;
      retryCount := 0;
      retries := [];
    }

    method FetchTrackingData(tn: Option<string>, reply: Result<Snapshot>)
      modifies this
      ensures State() == TrackingFetched(old(State()), tn, reply)
    {
      if !Truthy(tn) {
        return;
      }
      isLoading := true;
      error := None;
      match reply {
        case Ok(data) =>
          trackingData := Some(data);
          isConnected := true;
          retryCount := 0;
        case Err(message) =>
          error := Some(message);
          isConnected := false;
          if retryCount < MaxRetries {
            retryCount := retryCount + 1;
            retries := retries + [RetryTimer(tn, TrackingRetryDelay)];
          }
      }
      isLoading := false;
    }

    method FetchRealTimeLocation(reply: Result<LiveLocation>)
      modifies this
      ensures State() == LocationFetched(old(State()), reply)
    {
      if !Truthy(trackingNumber) || !isActive {
        return;
      }
      match reply
      case Ok(location) =>
        realTimeLocation := Some(location);
        isConnected := true;
      case Err(_) =>
        isConnected := false;
    }

    method StartPolling(tracking: Result<Snapshot>, location: Result<LiveLocation>)
      modifies this
      ensures State() == PollingStarted(old(State()), tracking, location)
    {
      if interval.Some? {
        return;
      }
      FetchRealTimeLocation(location);
      FetchTrackingData(trackingNumber, tracking);
      interval := Some(Interval(nextHandle, PollInterval));
      live := live + {nextHandle};
      nextHandle := nextHandle + 1;
    }

    method StopPolling()
      modifies this
      ensures State() == PollingStopped(old(State()))
    {
      if interval.Some? {
        live := live - {interval.value.handle};
        interval := None;
      }
    }

    method OnTick(location: Result<LiveLocation>)
      modifies this
      ensures State() == Ticked(old(State()), location)
    {
      if interval.Some? {
        FetchRealTimeLocation(location);
      }
    }

    method Refresh(tracking: Result<Snapshot>, location: Result<LiveLocation>)
      modifies this
      ensures State() == Refreshed(old(State()), tracking, location)
    {
      FetchRealTimeLocation(location);
      FetchTrackingData(trackingNumber, tracking);
    }

    method OnRetryTimer(index: nat, tracking: Result<Snapshot>)
      modifies this
      ensures State() == RetryFired(old(State()), index, tracking)
    {
      if index < |retries| {
        var tn := retries[index].trackingNumber;
        retries := RemoveAt(retries, index);
        FetchTrackingData(tn, tracking);
      }
    }

    method RunEffect(tracking: Result<Snapshot>, location: Result<LiveLocation>)
      modifies this
      ensures State() == Effect(old(State()), tracking, location)
    {
      if isActive && Truthy(trackingNumber) {
        StartPolling(tracking, location);
      } else {
        StopPolling();
      }
    }

    method OnRender(tn: Option<string>, active: bool, tracking: Result<Snapshot>, location: Result<LiveLocation>)
      modifies this
      ensures State() == Rerendered(old(State()), tn, active, tracking, location)
    {
      if tn == trackingNumber && active == isActive {
        return;
      }
      StopPolling();
      trackingNumber := tn;
      isActive := active;
      RunEffect(tracking, location);
    }

    method OnUnmount()
      modifies this
      ensures State() == Unmounted(old(State()))
    {
      StopPolling();
      StopPolling();
    }
  }
}
