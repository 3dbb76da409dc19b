/** The device services the screens use, reduced to the state they touch:
    the AsyncStorage key/value store, the expo-router navigation history,
    the alerts shown with `Alert.alert`, and a log of the HTTP requests the
    axios instance dispatched. Server answers are supplied by the caller. */
module Platform {
  import opened JsText

  /** A modal notice: `Alert.alert(title, message)`. */
  datatype Alert = Alert(title: string, message: string)

  datatype HttpMethod = Get | Post

  /** The JSON bodies the screens send. */
  datatype Body =
    | NoBody
    | Credentials(phone: string, password: string)
    | Registration(name: string, phone: string, password: string)
    | BusRoute(busNumber: string, fromCity: string, toCity: string,
               shiftStartTime: string, shiftEndTime: string)

  /** A request as it leaves the axios instance, after the request hook. */
  datatype Request = Request(verb: HttpMethod, baseUrl: string, timeout: int,
                             url: string, headers: map<string, string>, body: Body)

  /** A rejected request: either no response arrived (timeout, network
      failure) or the server answered with an error body whose `error` and
      `message` fields may be absent. */
  datatype RequestError =
    | NoResponse
    | Response(error: Option<string>, message: Option<string>)
  {
    /** `err.response?.data?.error` */
    function ServerError(): Option<string> {
      if Response? then error else None
    }

    /** `err.response?.data?.message` */
    function ServerMessage(): Option<string> {
      if Response? then message else None
    }
  }

  /** What an awaited request settles to: resolved with the response data,
      or rejected. */
  datatype Outcome<+T> = Ok(data: T) | Fail(err: RequestError)

  class Device {
    /** `API_URL` from ./config, which is not part of this model. */
    const apiUrl: string
    /** AsyncStorage: durable string values under string keys. */
    var store: map<string, string>
    /** Routes pushed with `router.push`, oldest first. */
    var history: seq<string>
    /** Alerts shown, oldest first. */
    var alerts: seq<Alert>
    /** Requests dispatched, oldest first. */
    var requests: seq<Request>

    /** A device whose durable store already holds `store` (it survives
        restarts); nothing has been navigated, shown or sent yet. */
    constructor (apiUrl: string, store: map<string, string>)
      ensures this.apiUrl == apiUrl && this.store == store
      ensures history == [] && alerts == [] && requests == []
    {
      this.apiUrl := apiUrl;
      this.store := store;
      history := [];
      alerts := [];
      requests := [];
    }

    /** `AsyncStorage.getItem(key)`: the stored string, or null for a
        missing key (never an error). */
    function GetItem(key: string): (v: Option<string>)
      reads this
      ensures v.Some? <==> key in store
      ensures v.Some? ==> v.value == store[key]
    {
      if key in store then Some(store[key]) else None
    }

    /** `AsyncStorage.setItem(key, value)`: overwrites `key` only. */
    method SetItem(key: string, value: string)
      modifies this
      ensures store == old(store)[key := value]
      ensures GetItem(key) == Some(value)
      ensures history == old(history) && alerts == old(alerts) && requests == old(requests)
    {
      store := store[key := value];
    }

    /** `router.push(route)`. */
    method Push(route: string)
      modifies this
      ensures history == old(history) + [route]
      ensures store == old(store) && alerts == old(alerts) && requests == old(requests)
    {
      history := history + [route];
    }

    /** `Alert.alert(title, message)`. */
    method ShowAlert(title: string, message: string)
      modifies this
      ensures alerts == old(alerts) + [Alert(title, message)]
      ensures store == old(store) && history == old(history) && requests == old(requests)
    {
      alerts := alerts + [Alert(title, message)];
    }
  }
}
