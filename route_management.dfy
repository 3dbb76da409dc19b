/** The duty screen: five form fields, two shift buttons that stamp the
    current time, and a submit handler that registers the bus and opens the
    location-sharing screen whatever the server answers. The screen also
    pushes that route every time it renders. */
module RouteManagement {
  import opened JsText
  import opened Platform
  import Api

  const BusAddPath: string := "/api/bus/add"
  const SharingRoute: string := "/location-sharing"
  const BusIdKey: string := "busId"

  /** The resolved body of the bus-add call: `bus?._id` when present. */
  datatype BusData = BusData(busId: Option<string>)

  /** Whether `handleDone` stops at validation: some field is the empty
      string. Unlike the login and sign-up checks there is no trimming. */
  predicate MissingField(busNumber: string, fromCity: string, toCity: string,
                         shiftStartTime: string, shiftEndTime: string): (missing: bool)
    // `!field` on a string: only the empty string is falsy
    ensures missing <==>
      || !Truthy(Some(busNumber)) || !Truthy(Some(fromCity)) || !Truthy(Some(toCity))
      || !Truthy(Some(shiftStartTime)) || !Truthy(Some(shiftEndTime))
  {
    busNumber == "" || fromCity == "" || toCity == "" || shiftStartTime == "" || shiftEndTime == ""
  }

  /** The headers `handleDone` passes explicitly: a bearer header built from
      the token it read, which prints "null" when there is none. */
  function BusAddHeaders(token: Option<string>): (h: map<string, string>)
    ensures h.Keys == {Api.AuthorizationHeader}
    ensures h[Api.AuthorizationHeader] == "Bearer " + Interpolate(token)
    ensures token.None? ==> h[Api.AuthorizationHeader] == "Bearer null"
    ensures Truthy(token) ==> h[Api.AuthorizationHeader] == "Bearer " + token.value
  {
    map[Api.AuthorizationHeader := "Bearer " + Interpolate(token)]
  }

  /** The store after a successful registration: `busId` is replaced only
      when the server sent a truthy id; every other key, `token` and
      `driverId` included, is left as it was. */
  function SavedBus(store: map<string, string>, data: BusData): (r: map<string, string>)
    ensures BusIdKey in r <==> BusIdKey in store || Truthy(data.busId)
    ensures Truthy(data.busId) ==> r[BusIdKey] == data.busId.value
    ensures !Truthy(data.busId) && BusIdKey in store ==> r[BusIdKey] == store[BusIdKey]
    ensures forall k :: k != BusIdKey ==> (k in r <==> k in store) && (k in store ==> r[k] == store[k])
  {
    if Truthy(data.busId) then store[BusIdKey := data.busId.value] else store
  }

  /** The Authorization header the bus-add request leaves with: always
      "Bearer " followed by the stored token as printed, since the request
      hook either rewrites it to the same text or leaves it alone. With no
      token it is "Bearer null". */
  lemma BusAddAuthorization(token: Option<string>)
    ensures var h := Api.SessionHeaders(BusAddHeaders(token), token);
      && Api.AuthorizationHeader in h
      && h[Api.AuthorizationHeader] == "Bearer " + Interpolate(token)
      && (token.None? ==> h[Api.AuthorizationHeader] == "Bearer null")
      && (token == Some("") ==> h[Api.AuthorizationHeader] == "Bearer ")
  {
  }

  /** Any non-empty whitespace-only value passes this screen's check while
      the login and sign-up checks reject it. */
  lemma WhitespaceOnlyPasses(s: string)
    requires s != [] && AllWhitespace(s)
    ensures !MissingField(s, s, s, s, s)
    ensures Blank(s)
  {
  }

  class RouteManagementScreen {
    var busNumber: string
    var fromCity: string
    var toCity: string
    var shiftStartTime: string
    var shiftEndTime: string

    constructor ()
      ensures busNumber == "" && fromCity == "" && toCity == ""
      ensures shiftStartTime == "" && shiftEndTime == ""
    {
      busNumber := "";
      fromCity := "";
      toCity := "";
      shiftStartTime := "";
      shiftEndTime := "";
    }

    /** The bus number field's `onChangeText`. */
    method SetBusNumber(text: string)
      modifies this
      ensures busNumber == text && fromCity == old(fromCity) && toCity == old(toCity)
      ensures shiftStartTime == old(shiftStartTime) && shiftEndTime == old(shiftEndTime)
    {
      busNumber := text;
    }

    /** The origin city field's `onChangeText`. */
    method SetFromCity(text: string)
      modifies this
      ensures fromCity == text && busNumber == old(busNumber) && toCity == old(toCity)
      ensures shiftStartTime == old(shiftStartTime) && shiftEndTime == old(shiftEndTime)
    {
      fromCity := text;
    }

    /** The destination city field's `onChangeText`. */
    method SetToCity(text: string)
      modifies this
      ensures toCity == text && busNumber == old(busNumber) && fromCity == old(fromCity)
      ensures shiftStartTime == old(shiftStartTime) && shiftEndTime == old(shiftEndTime)
    {
      toCity := text;
    }

    /** `handleShiftStart`, given the current time already formatted. */
    method HandleShiftStart(now: string)
      modifies this
      ensures shiftStartTime == now && shiftEndTime == old(shiftEndTime)
      ensures busNumber == old(busNumber) && fromCity == old(fromCity) && toCity == old(toCity)
    {
      shiftStartTime := now;
    }

    /** `handleShiftEnd`, given the current time already formatted. */
    method HandleShiftEnd(now: string)
      modifies this
      ensures shiftEndTime == now && shiftStartTime == old(shiftStartTime)
      ensures busNumber == old(busNumber) && fromCity == old(fromCity) && toCity == old(toCity)
    {
      shiftEndTime := now;
    }

    /** The `router.push` the component body makes on every render. */
    method Render(device: Device)
      modifies device
      ensures device.history == old(device.history) + [SharingRoute]
      ensures device.store == old(device.store) && device.alerts == old(device.alerts)
      ensures device.requests == old(device.requests)
    {
      device.Push(SharingRoute);
    }

    /** `handleDone`, where `answer` is how the bus-add request settles. */
    method HandleDone(device: Device, answer: Outcome<BusData>)
      modifies device
      ensures MissingField(busNumber, fromCity, toCity, shiftStartTime, shiftEndTime) ==>
        && device.alerts == old(device.alerts) + [Alert("Error", "Please fill in all fields")]
        && device.requests == old(device.requests)
        && device.store == old(device.store) && device.history == old(device.history)
      ensures !MissingField(busNumber, fromCity, toCity, shiftStartTime, shiftEndTime) ==>
        // one request, with the bearer header built from the token read first
        && device.requests == old(device.requests)
             + [Api.Issued(device.apiUrl, old(device.store), Post, BusAddPath,
                           BusAddHeaders(old(device.GetItem(Api.TokenKey))),
                           BusRoute(busNumber, fromCity, toCity, shiftStartTime, shiftEndTime))]
        // both outcomes end on the location-sharing screen
        && device.history == old(device.history) + [SharingRoute]
      ensures !MissingField(busNumber, fromCity, toCity, shiftStartTime, shiftEndTime) && answer.Ok? ==>
        && device.store == SavedBus(old(device.store), answer.data)
        && device.alerts == old(device.alerts) + [Alert("Success", "Bus & route saved successfully!")]
      ensures !MissingField(busNumber, fromCity, toCity, shiftStartTime, shiftEndTime) && answer.Fail? ==>
        && device.store == old(device.store)
        && device.alerts == old(device.alerts)
             + [Alert("Error", OrElse(answer.err.ServerMessage(), "Failed to save bus"))]
    {
      if busNumber == "" || fromCity == "" || toCity == "" || shiftStartTime == "" || shiftEndTime == "" {
        device.ShowAlert("Error", "Please fill in all fields");
        return;
      }
      var token := device.GetItem(Api.TokenKey);
      var res := Api.Send(device, Post, BusAddPath, BusAddHeaders(token),
                          BusRoute(busNumber, fromCity, toCity, shiftStartTime, shiftEndTime), answer);
      match res
      case Ok(data) =>
        if Truthy(data.busId) {
          device.SetItem(BusIdKey, data.busId.value);
        }
        device.ShowAlert("Success", "Bus & route saved successfully!");
        device.Push(SharingRoute);
      case Fail(err) =>
        device.ShowAlert("Error", OrElse(err.ServerMessage(), "Failed to save bus"));
        device.Push(SharingRoute);
    }
  }
}
