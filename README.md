# RouteMaster client core, modelled in Dafny

RouteMaster is a React Native bus-tracking client. Drivers do three things:
- sign in or sign up;
- register a bus, its route and shift times;
- go on to a location-sharing screen.

Passengers open a screen that polls a bus's last known location. This project models the decision logic of these screens and of the shared axios request hook. The state they touch is the device's:
- the AsyncStorage key/value store (`token`, `driverId`, `busId`);
- the router's navigation history;
- the alerts shown;
- the requests dispatched.

The server's answer to each request is a parameter of the handler: `Ok(data)` or `Fail(err)`.

Modules, one per source file:

- `JsText`: the JavaScript value rules the screens rely on: truthiness of a string-or-absent value, `a || b` fallbacks, `${v}` interpolation of a possibly-null value, and `String.prototype.trim` over the ECMAScript whitespace and line-terminator characters.
- `Platform`: the `Device` class (store, history, alerts, request log) and the request, body, alert and outcome datatypes.
- `Api` (app/api.js): the base address and the 15000 ms timeout. Also the request hook as a method that updates a `RequestConfig` object's headers in place. The pure `SessionHeaders` function specifies that hook.
- `Login` (app/index.js), `Signup` (app/signup.js), `RouteManagement` (app/route-management.js): each screen is a class holding its form fields. Its handler is a method whose postcondition gives the whole new device state in each case: blocked by validation, succeeded, failed.
- `PassengerView` (app/passenger-view.js): the passenger screen as a class. It has a `location` slot, an `interval` flag and a ghost log of the fetch answers applied. `Valid()` ties the slot to `Replay(None, log)`. Lemmas about `Replay` say what polling does: the slot holds the latest delivered sample, is never cleared, and stays as it was while fetches fail.

Behaviour of the code worth knowing, which the model keeps:
- The bus-add request is sent even when no token is stored. It then carries `Authorization: Bearer null` (app/route-management.js:64), because the request hook only overrides it for a truthy token (app/api.js:10).
- Nothing stops a poll response that arrives after cleanup from being applied (app/passenger-view.js:20). The model has every fetch settle before the next event.
- Sign-up goes straight to `/location-sharing` (app/signup.js:43), not to the duty screen.
- The bus-add check does no trimming (app/route-management.js:47), so whitespace-only fields pass it.

## Model

| member | source | states |
|---|---|---|
| JsText.LeadingWhitespace | app/index.js:23 | The count of leading characters `trim()` removes: all of the first n characters are whitespace, and the next one, if any, is not. |
| JsText.TrailingWhitespace | app/index.js:23 | The same count for trailing characters: the last n are whitespace, and the one before them, if any, is not. |
| JsText.Trim | app/index.js:23 | `s.trim()` is the slice of `s` that starts after its leading whitespace. Everything before and after that slice is whitespace. The result is empty exactly when `s` is all whitespace, and otherwise neither starts nor ends with whitespace. Together these fix the result uniquely. |
| JsText.TrimIdempotent | app/index.js:23 | Trimming an already trimmed string changes nothing. |
| Platform.Device.GetItem | app/api.js:9 | Reading a key gives the stored string when the key is present, and null (None) when it is missing. |
| Platform.Device.SetItem | app/index.js:32 | Writing overwrites that one key, and reading it back gives the written value. Navigation, alerts and requests are untouched. |
| Platform.Device.Push | app/index.js:38 | `router.push` appends the route to the history and changes nothing else. |
| Platform.Device.ShowAlert | app/index.js:24 | `Alert.alert` appends the (title, message) notice and changes nothing else. |
| Api.SessionHeaders | app/api.js:8-12 | Authorization becomes "Bearer "+token when the stored token is truthy. Otherwise the caller's Authorization, or its absence, is kept. Content-Type is always application/json. Every other header is unchanged. |
| Api.Issued | app/api.js:6-12 | Every dispatched request carries the instance's base address and the 15000 ms timeout, with its method, url and body as called. Its headers are the hook's result (SessionHeaders) for the caller's headers and the stored token. |
| Api.Intercept | app/api.js:8-13 | The hook returns the same config object. It changes only that config's headers, as SessionHeaders of the stored token says. It never writes the store. |
| Api.Send | app/api.js:6-13 | A call logs exactly one request whose headers went through the hook, and settles to the server's answer. The store, history and alerts are untouched. |
| Login.SavedSession | app/index.js:32-35 | After authentication `token` is the server's token. `driverId` is replaced only when the server sent a truthy id, and is otherwise kept or still absent. All other keys are unchanged. |
| Login.LoginScreen.constructor | app/index.js:18-19 | Both form fields start empty. |
| Login.LoginScreen.SetPhone | app/index.js:71 | The phone field takes the typed text. The password is unchanged. |
| Login.LoginScreen.SetPassword | app/index.js:81 | The password field takes the typed text. The phone is unchanged. |
| Login.LoginScreen.HandleLogin | app/index.js:22-43 | A blank trimmed phone or password gives only ("Error","Please enter phone and password"). Otherwise one login request goes out with the untrimmed fields. Success saves the session, alerts ("Success","Login successful!") and pushes /route-management. Failure leaves store and route, and alerts "Login Failed" with the server's `error` or "Invalid credentials". |
| Login.FirstLogin | app/index.js:22-43 | Logging in as 9999999999/secret on a fresh device, answered with token "abc" and driver "d1", stores token "abc" and driverId "d1". The route is /route-management, and the one request carries only the JSON content type. |
| Signup.MissingField | app/signup.js:24 | Sign-up stops at validation exactly when some field is empty or all whitespace. |
| Signup.SignupScreen.constructor | app/signup.js:18-20 | All three form fields start empty. |
| Signup.SignupScreen.SetName | app/signup.js:18 | The name field takes the typed text. The other fields are unchanged. |
| Signup.SignupScreen.SetPhone | app/signup.js:19 | The phone field takes the typed text. The other fields are unchanged. |
| Signup.SignupScreen.SetPassword | app/signup.js:20 | The password field takes the typed text. The other fields are unchanged. |
| Signup.SignupScreen.HandleSignup | app/signup.js:23-48 | Any blank trimmed field gives only ("Error","All fields are required"). Otherwise one register request goes out with the untrimmed triple. Success saves the session as login does, alerts ("Success","Account created successfully!") and pushes /location-sharing. Failure alerts "Signup Failed" with the server's `error` or "Something went wrong", and does not navigate. |
| RouteManagement.MissingField | app/route-management.js:47 | Bus registration stops at validation exactly when some field is falsy, that is, the empty string. |
| RouteManagement.BusAddHeaders | app/route-management.js:64 | The explicit headers hold only Authorization: "Bearer " plus the token as printed. That is "Bearer null" with no token, and "Bearer "+token for a truthy one. |
| RouteManagement.SavedBus | app/route-management.js:67-69 | `busId` is replaced only when the server sent a truthy id. `token`, `driverId` and every other key are unchanged. |
| RouteManagement.BusAddAuthorization | app/route-management.js:53-64 | The bus-add request leaves with Authorization "Bearer "+(stored token as printed). That is "Bearer null" with no token and "Bearer " for an empty one, because the hook does not override a falsy token. |
| RouteManagement.WhitespaceOnlyPasses | app/route-management.js:47 | Any non-empty whitespace-only value in every field passes this screen's check, while the trimmed login and sign-up checks reject it. |
| RouteManagement.RouteManagementScreen.constructor | app/route-management.js:17-21 | All five fields start empty. |
| RouteManagement.RouteManagementScreen.SetBusNumber | app/route-management.js:17 | Only the bus number changes. |
| RouteManagement.RouteManagementScreen.SetFromCity | app/route-management.js:18 | Only the origin city changes. |
| RouteManagement.RouteManagementScreen.SetToCity | app/route-management.js:19 | Only the destination city changes. |
| RouteManagement.RouteManagementScreen.HandleShiftStart | app/route-management.js:24-33 | Only the shift start time changes, to the given time text. |
| RouteManagement.RouteManagementScreen.HandleShiftEnd | app/route-management.js:35-44 | Only the shift end time changes, to the given time text. |
| RouteManagement.RouteManagementScreen.Render | app/route-management.js:79 | Every render pushes /location-sharing and changes nothing else. |
| RouteManagement.RouteManagementScreen.HandleDone | app/route-management.js:46-78 | Any empty field gives only ("Error","Please fill in all fields"). Otherwise one bus-add request goes out with the five fields and the explicit bearer header, and both outcomes push /location-sharing. Success saves the bus id and alerts ("Success","Bus & route saved successfully!"). Failure keeps the store and alerts "Error" with the server's `message` or "Failed to save bus". |
| PassengerView.BusIdFrom | app/passenger-view.js:7 | The bus id is the route param when that is truthy, else "BUS12". It is never empty. |
| PassengerView.LocationPath | app/passenger-view.js:13 | The location endpoint of a bus is /api/passenger/bus/ followed by exactly its id. |
| PassengerView.At | app/passenger-view.js:15 | `coords[i]` is the i-th coordinate, or undefined past the end of the array. |
| PassengerView.SampleOf | app/passenger-view.js:14-15 | A body yields a sample exactly when it has coordinates: lng is position 0, lat is position 1, and lastUpdated is the body's. |
| PassengerView.Fresh | app/passenger-view.js:12-16 | A failed fetch delivers no sample. A success delivers the sample its body yields (SampleOf). |
| PassengerView.Polled | app/passenger-view.js:11-17 | A success with coordinates sets the slot to that sample. A failure or a coordinate-less success leaves the slot as it was. |
| PassengerView.ReplayAppend | app/passenger-view.js:19 | Each further fetch applies Polled on top of the slot the earlier fetches left. |
| PassengerView.ReplayIsLatest | app/passenger-view.js:10-21 | After any run of fetches the slot is the most recent delivered sample, or its starting value when none delivered one. |
| PassengerView.SlotIsLatest | app/passenger-view.js:8-21 | Starting from null, the slot is exactly the latest delivered sample, or null. |
| PassengerView.NeverCleared | app/passenger-view.js:14-16 | Once the slot holds a sample, polling never resets it to null. |
| PassengerView.NothingDeliveredKeeps | app/passenger-view.js:14-16 | Fetches that all fail or lack coordinates leave the slot unchanged. |
| PassengerView.StaleAfterFailure | app/passenger-view.js:12-16 | If poll N fails right after poll N-1 delivered a sample, the slot still holds poll N-1's sample. |
| PassengerView.View | app/passenger-view.js:25-32 | "Waiting for location..." is shown iff the slot is null. Otherwise the bus, lat, lng and last-updated time of the sample are shown. |
| PassengerView.PassengerScreen.constructor | app/passenger-view.js:6-8 | The first render takes the bus id from the params, with an empty slot and no interval yet. |
| PassengerView.PassengerScreen.Shown | app/passenger-view.js:23-34 | The screen shows the waiting text iff its slot is null. |
| PassengerView.PassengerScreen.Fetch | app/passenger-view.js:11-17 | One fetch sends GET /api/passenger/bus/<busId> through the hook and updates the slot as Polled says. Nothing else changes. |
| PassengerView.PassengerScreen.Activate | app/passenger-view.js:18-19 | The effect fetches once immediately and then sets a 5000 ms interval. |
| PassengerView.PassengerScreen.Tick | app/passenger-view.js:19 | While the interval is set, a tick performs one fetch. After cleanup nothing happens. |
| PassengerView.PassengerScreen.Cleanup | app/passenger-view.js:20 | Cleanup clears the interval and keeps the slot. |
| PassengerView.PassengerScreen.Rerender | app/passenger-view.js:21 | A new bus id restarts the effect with a fetch for the new id, keeping the old sample until a fetch delivers another. The same id changes nothing. |

## Left out

- Rendering, layout and styles: JSX, `StyleSheet`, and the shift buttons' active styling. The displayed content is modelled by `View`.
- `console.log` calls in every catch block and in the poller: logging only.
- The login screen's "Create New Account" push to `/signup` (app/index.js:45-47), the sign-up screen's `router.replace('/')`, and the duty screen's `router.back()`: plain navigation outside the handlers modelled here.
- Time and locale formatting (`toLocaleTimeString`, `toLocaleString`): shift times and `lastUpdated` are opaque strings passed in. Coordinates are opaque `real` values; only their positions in the array are modelled.
- `API_URL` from `./config`: that file is not part of this model. The address is a constructor parameter of `Device`.
- The hook's error handler (app/api.js:13) just rejects with the same error; errors raised before dispatch are not modelled.
- Axios internals: the instance's own default headers are not modelled, and neither is case-insensitive header matching. A request's headers start as exactly the map the caller passed.
- Async behaviour: interleaved handlers, fetches that overlap or arrive out of order, and responses that land after cleanup. Every request settles before the next event.
- The re-renders of the duty screen. In the source, mounting the screen and every setter that changes a field re-render it (app/route-management.js:17-21), and each render pushes `/location-sharing` again (app/route-management.js:79). The model's constructor and setters do not call `Render`. `Render` is a separate event that the caller invokes once per render.
- Storage failures: the model assumes every store call succeeds. In the source, every store call sits inside its handler's `try`, so a failed call is caught there:
  - A rejected `setItem` at app/index.js:32 or :34 lands in the catch at app/index.js:39-41 and shows "Login Failed"/"Invalid credentials". If :34 fails after :32 succeeded, `token` is already written.
  - The sign-up screen behaves the same way (app/signup.js:37-46).
  - A failed `getItem` at app/route-management.js:53 means no request is sent. That failure, or a failed `setItem` at :68, alerts "Failed to save bus" and still navigates to `/location-sharing`.
- Login.SavedSession: a success body without a `token` field (which would make `setItem` fail) is not modelled. The token is always a string.
- The order between an alert and the navigation that follows it is not recorded, because alerts and history are separate logs.
