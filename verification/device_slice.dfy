/** The client's device slice (deviceSlice.ts): the fetched device list and a loading
    flag, driven by the pending, fulfilled and rejected events of the fetch-devices
    request.

    `Next` is the reducer as a function of the state and the event; `Draft` is the
    store's draft, whose case reducers assign its fields in place. */
module DeviceSlice {
  import opened DeviceProjection

  datatype DeviceState = DeviceState(devices: seq<WireDevice>, isLoading: bool)

  /** The events of fetchDevicesThunk; `Fulfilled` carries `payload.data`. */
  datatype FetchEvent = Pending | Fulfilled(data: seq<WireDevice>) | Rejected

  const Initial := DeviceState([], false)

  /** The slice reducer. */
  function Next(s: DeviceState, e: FetchEvent): (t: DeviceState)
    ensures t.isLoading <==> e.Pending?
    ensures e.Pending? ==> t.devices == s.devices
  {
    match e
    case Pending => s.(isLoading := true)
    case Fulfilled(data) => DeviceState(data, false)
    case Rejected => DeviceState([], false)
  }

  /** The state after the events, in order. */
  function Run(s: DeviceState, events: seq<FetchEvent>): DeviceState {
    if events == [] then s else Next(Run(s, events[..|events| - 1]), events[|events| - 1])
  }

  /** The list the last settling event left: its payload when it was fulfilled, the
      empty list when it was rejected, and `prev` when no request has settled. */
  function LastSettledList(prev: seq<WireDevice>, events: seq<FetchEvent>): seq<WireDevice> {
    if events == [] then prev
    else match events[|events| - 1]
      case Pending => LastSettledList(prev, events[..|events| - 1])
      case Fulfilled(data) => data
      case Rejected => []
  }

  /** After any events the slice is loading exactly when the last event was a pending
      one. */
  lemma LoadingIffLastPending(s: DeviceState, events: seq<FetchEvent>)
    requires events != []
    ensures Run(s, events).isLoading <==> events[|events| - 1].Pending?
  {
  }

  /** After any events the list is the one the last settled request left; pending
      events never touch it. */
  lemma {:induction false} DevicesFromLastSettled(s: DeviceState, events: seq<FetchEvent>)
    ensures Run(s, events).devices == LastSettledList(s.devices, events)
  {
    if events != [] {
      DevicesFromLastSettled(s, events[..|events| - 1]);
    }
  }

  /** Starting from the initial state the list is empty until a request is fulfilled. */
  lemma EmptyUntilFulfilled(events: seq<FetchEvent>)
    requires forall i :: 0 <= i < |events| ==> !events[i].Fulfilled?
    ensures Run(Initial, events).devices == []
  {
    DevicesFromLastSettled(Initial, events);
    NoFulfilledNoList(events);
  }

  lemma {:induction false} NoFulfilledNoList(events: seq<FetchEvent>)
    requires forall i :: 0 <= i < |events| ==> !events[i].Fulfilled?
    ensures LastSettledList([], events) == []
  {
    if events != [] {
      NoFulfilledNoList(events[..|events| - 1]);
    }
  }

  /** The slice's draft state. */
  class Draft {
    var devices: seq<WireDevice>
    var isLoading: bool

    function State(): DeviceState
      reads this
    {
      DeviceState(devices, isLoading)
    }

    /** initialState: no devices, not loading. */
    constructor ()
      ensures State() == Initial
    {
      devices := [];
      isLoading := false;
    }

    method FetchPending()
      modifies this
      ensures State() == Next(old(State()), Pending)
      ensures isLoading && devices == old(devices)
    {
      isLoading := true;
    }

    method FetchFulfilled(data: seq<WireDevice>)
      modifies this
      ensures State() == Next(old(State()), Fulfilled(data))
      ensures !isLoading && devices == data
    {
      isLoading := false;
      devices := data;
    }

    method FetchRejected()
      modifies this
      ensures State() == Next(old(State()), Rejected)
      ensures !isLoading && devices == []
    {
      isLoading := false;
      devices := [];
    }
  }
}
