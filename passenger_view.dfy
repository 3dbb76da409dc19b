/** The passenger screen: it holds one latest-location slot for a bus and,
    while its effect is active, fetches that bus's location immediately and
    then once per interval. A fetch replaces the slot only when the answer
    carries coordinates; failures and coordinate-less answers keep the last
    known sample. */
module PassengerView {
  import opened JsText
  import opened Platform
  import Api

  const DefaultBusId: string := "BUS12"
  /** Polling period of the effect's interval, in milliseconds. */
  const PollInterval: nat := 5000

  /** The resolved body of the location call: `location?.coordinates` when
      present, and `lastUpdated`. Coordinate values are kept opaque. */
  datatype LocationData = LocationData(coordinates: Option<seq<real>>, lastUpdated: Option<string>)

  /** The slot's content. A position missing from the coordinate array reads
      as `undefined`, here `None`. */
  datatype Sample = Sample(lng: Option<real>, lat: Option<real>, lastUpdated: Option<string>)

  /** What the screen shows. */
  datatype Display =
    | Waiting
    | Showing(bus: string, lat: Option<real>, lng: Option<real>, lastUpdated: Option<string>)

  /** `route?.params?.busId || 'BUS12'` */
  function BusIdFrom(param: Option<string>): (id: string)
    ensures Truthy(param) ==> id == param.value
    ensures !Truthy(param) ==> id == DefaultBusId
    ensures id != ""
  {
    OrElse(param, DefaultBusId)
  }

  const LocationPrefix: string := "/api/passenger/bus/"

  /** The location endpoint of one bus: the fixed prefix followed by the id,
      so distinct buses get distinct paths. */
  function LocationPath(busId: string): (p: string)
    ensures |p| == |LocationPrefix| + |busId|
    ensures p[..|LocationPrefix|] == LocationPrefix && p[|LocationPrefix|..] == busId
  {
    LocationPrefix + busId
  }

  /** `coords[i]`, or `undefined` past the end. */
  function At(coords: seq<real>, i: nat): (v: Option<real>)
    ensures v.Some? <==> i < |coords|
    ensures i < |coords| ==> v.value == coords[i]
  {
    if i < |coords| then Some(coords[i]) else None
  }

  /** The sample an answer's body yields: one exactly when coordinates are
      present, with position 0 as longitude and position 1 as latitude. */
  function SampleOf(data: LocationData): (s: Option<Sample>)
    ensures s.Some? <==> data.coordinates.Some?
    ensures s.Some? ==>
      && s.value.lng == At(data.coordinates.value, 0)
      && s.value.lat == At(data.coordinates.value, 1)
      && s.value.lastUpdated == data.lastUpdated
  {
    match data.coordinates
    case Some(coords) => Some(Sample(At(coords, 0), At(coords, 1), data.lastUpdated))
    case None => None
  }

  /** The sample a settled fetch delivers, if any: none for a failure. */
  function Fresh(answer: Outcome<LocationData>): (s: Option<Sample>)
    ensures answer.Fail? ==> s.None?
    ensures answer.Ok? ==> s == SampleOf(answer.data)
  {
    if answer.Ok? then SampleOf(answer.data) else None
  }

  /** The slot after one fetch settles: the fresh sample when there is one,
      otherwise the slot as it was. */
  function Polled(location: Option<Sample>, answer: Outcome<LocationData>): (r: Option<Sample>)
    ensures answer.Ok? && answer.data.coordinates.Some? ==> r == SampleOf(answer.data) && r.Some?
    ensures answer.Fail? || answer.data.coordinates.None? ==> r == location
  {
    var s := Fresh(answer);
    if s.Some? then s else location
  }

  /** The slot after a run of fetches settle in order. */
  function Replay(location: Option<Sample>, answers: seq<Outcome<LocationData>>): Option<Sample>
    decreases |answers|
  {
    if answers == [] then location else Replay(Polled(location, answers[0]), answers[1..])
  }

  /** The most recent sample among `answers`, if any delivered one. */
  function Latest(answers: seq<Outcome<LocationData>>): Option<Sample>
    decreases |answers|
  {
    if answers == [] then None
    else
      var s := Fresh(answers[|answers| - 1]);
      if s.Some? then s else Latest(answers[..|answers| - 1])
  }

  /** One more fetch applies on top of the slot the earlier fetches left. */
  lemma {:induction false} ReplayAppend(location: Option<Sample>, answers: seq<Outcome<LocationData>>,
                                        answer: Outcome<LocationData>)
    ensures Replay(location, answers + [answer]) == Polled(Replay(location, answers), answer)
    decreases |answers|
  {
    if answers != [] {
      assert (answers + [answer])[1..] == answers[1..] + [answer];
      ReplayAppend(Polled(location, answers[0]), answers[1..], answer);
    }
  }

  /** The slot holds the most recent delivered sample, or its starting value
      when no fetch delivered one. */
  lemma {:induction false} ReplayIsLatest(location: Option<Sample>, answers: seq<Outcome<LocationData>>)
    ensures Replay(location, answers) == if Latest(answers).Some? then Latest(answers) else location
    decreases |answers|
  {
    if answers != [] {
      var prefix := answers[..|answers| - 1];
      var last := answers[|answers| - 1];
      assert answers == prefix + [last];
      ReplayAppend(location, prefix, last);
      ReplayIsLatest(location, prefix);
    }
  }

  /** A freshly mounted screen's slot is the most recent delivered sample,
      or null when no fetch has delivered one. */
  lemma SlotIsLatest(answers: seq<Outcome<LocationData>>)
    ensures Replay(None, answers) == Latest(answers)
  {
    ReplayIsLatest(None, answers);
  }

  /** Polling never clears a slot that holds a sample. */
  lemma NeverCleared(location: Option<Sample>, answers: seq<Outcome<LocationData>>)
    requires location.Some?
    ensures Replay(location, answers).Some?
  {
    ReplayIsLatest(location, answers);
  }

  /** A run of fetches none of which delivers a sample leaves the slot as it
      was. */
  lemma {:induction false} NothingDeliveredKeeps(location: Option<Sample>, answers: seq<Outcome<LocationData>>)
    requires forall i :: 0 <= i < |answers| ==> Fresh(answers[i]).None?
    ensures Replay(location, answers) == location
    decreases |answers|
  {
    if answers != [] {
      NothingDeliveredKeeps(Polled(location, answers[0]), answers[1..]);
    }
  }

  /** A failure right after a successful fetch keeps that fetch's sample. */
  lemma StaleAfterFailure(location: Option<Sample>, answers: seq<Outcome<LocationData>>,
                          ok: Outcome<LocationData>, failed: RequestError)
    requires Fresh(ok).Some?
    ensures Replay(location, answers + [ok, Fail(failed)]) == Fresh(ok)
  {
    assert answers + [ok, Fail(failed)] == (answers + [ok]) + [Fail(failed)];
    ReplayAppend(location, answers + [ok], Fail(failed));
    ReplayAppend(location, answers, ok);
  }

  /** What the screen renders for a slot: the waiting text exactly when the
      slot is empty, otherwise the bus and the sample's fields. */
  function View(busId: string, location: Option<Sample>): (d: Display)
    ensures d.Waiting? <==> location.None?
    ensures location.Some? ==>
      d == Showing(busId, location.value.lat, location.value.lng, location.value.lastUpdated)
  {
    match location
    case None => Waiting
    case Some(s) => Showing(busId, s.lat, s.lng, s.lastUpdated)
  }

  class PassengerScreen {
    var busId: string
    var location: Option<Sample>
    /** The running interval's period, or `None` when no interval is set. */
    var interval: Option<nat>
    /** Every fetch answer applied since the screen mounted, in order. */
    ghost var polled: seq<Outcome<LocationData>>

    ghost predicate Valid()
      reads this
    {
      && location == Replay(None, polled)
      && (interval.Some? ==> interval.value == PollInterval)
    }

    /** The first render: the bus id from the route params and an empty
        slot; the effect has not run yet. */
    constructor (param: Option<string>)
      ensures Valid()
      ensures busId == BusIdFrom(param) && location == None && interval == None && polled == []
    {
      busId := BusIdFrom(param);
      location := None;
      interval := None;
      polled := [];
    }

    /** What the screen currently shows. */
    function Shown(): (d: Display)
      reads this
      ensures d.Waiting? <==> location.None?
    {
      View(busId, location)
    }

    /** One `fetchLoc` run that settles to `answer`. */
    method Fetch(device: Device, answer: Outcome<LocationData>)
      requires Valid()
      modifies this, device
      ensures Valid()
      ensures location == Polled(old(location), answer) && polled == old(polled) + [answer]
      ensures busId == old(busId) && interval == old(interval)
      ensures device.requests == old(device.requests)
        + [Api.Issued(device.apiUrl, old(device.store), Get, LocationPath(busId), map[], NoBody)]
      ensures device.store == old(device.store)
      ensures device.history == old(device.history) && device.alerts == old(device.alerts)
    {
      var res := Api.Send(device, Get, LocationPath(busId), map[], NoBody, answer);
      if res.Ok? && res.data.coordinates.Some? {
        var coords := res.data.coordinates.value;
        location := Some(Sample(At(coords, 0), At(coords, 1), res.data.lastUpdated));
      }
      ReplayAppend(None, polled, answer);
      polled := polled + [answer];
    }

    /** The effect: one fetch immediately (settling to `first`), then an
        interval of `PollInterval`. */
    method Activate(device: Device, first: Outcome<LocationData>)
      requires Valid() && interval.None?
      modifies this, device
      ensures Valid()
      ensures interval == Some(PollInterval) && busId == old(busId)
      ensures location == Polled(old(location), first) && polled == old(polled) + [first]
      ensures device.requests == old(device.requests)
        + [Api.Issued(device.apiUrl, old(device.store), Get, LocationPath(busId), map[], NoBody)]
      ensures device.store == old(device.store)
      ensures device.history == old(device.history) && device.alerts == old(device.alerts)
    {
      Fetch(device, first);
      interval := Some(PollInterval);
    }

    /** The interval fires and its fetch settles to `answer`. A cleared
        interval never fires, so then nothing happens. */
    method Tick(device: Device, answer: Outcome<LocationData>)
      requires Valid()
      modifies this, device
      ensures Valid()
      ensures busId == old(busId) && interval == old(interval)
      ensures old(interval).Some? ==>
        && location == Polled(old(location), answer) && polled == old(polled) + [answer]
        && device.requests == old(device.requests)
             + [Api.Issued(device.apiUrl, old(device.store), Get, LocationPath(busId), map[], NoBody)]
      ensures old(interval).None? ==>
        location == old(location) && polled == old(polled) && device.requests == old(device.requests)
      ensures device.store == old(device.store)
      ensures device.history == old(device.history) && device.alerts == old(device.alerts)
    {
      if interval.Some? {
        Fetch(device, answer);
      }
    }

    /** The effect's cleanup: `clearInterval`. The slot is kept. */
    method Cleanup()
      requires Valid()
      modifies this
      ensures Valid()
      ensures interval == None
      ensures location == old(location) && busId == old(busId) && polled == old(polled)
    {
      interval := None;
    }

    /** A render with new route params while the effect runs. When the bus id
        changes, the effect is cleaned up and run again for the new id; the
        slot keeps the previous bus's sample until a fetch delivers one. */
    method Rerender(device: Device, param: Option<string>, first: Outcome<LocationData>)
      requires Valid() && interval.Some?
      modifies this, device
      ensures Valid()
      ensures busId == BusIdFrom(param) && interval == Some(PollInterval)
      ensures busId == old(busId) ==>
        && location == old(location) && polled == old(polled) && device.requests == old(device.requests)
      ensures busId != old(busId) ==>
        && location == Polled(old(location), first) && polled == old(polled) + [first]
        && device.requests == old(device.requests)
             + [Api.Issued(device.apiUrl, old(device.store), Get, LocationPath(busId), map[], NoBody)]
      ensures device.store == old(device.store)
      ensures device.history == old(device.history) && device.alerts == old(device.alerts)
    {
      var id := BusIdFrom(param);
      if id != busId {
        Cleanup();
        busId := id;
        Activate(device, first);
      }
    }
  }
}
