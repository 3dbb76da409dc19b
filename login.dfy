/** The login screen: a phone/password form whose submit handler checks the
    trimmed fields, sends the untrimmed credentials, and on success saves
    the session and opens the duty screen. */
module Login {
  import opened JsText
  import opened Platform
  import Api

  const LoginPath: string := "/api/auth/login"
  const DutyRoute: string := "/route-management"
  const DriverIdKey: string := "driverId"

  /** The resolved body of a login or register call: the token, and
      `driver?._id` when the server sent one. */
  datatype AuthData = AuthData(token: string, driverId: Option<string>)

  /** The store after a successful authentication: `token` is replaced by the
      server's token, `driverId` is replaced only when the server sent a
      truthy id, and every other key is left as it was. */
  function SavedSession(store: map<string, string>, data: AuthData): (r: map<string, string>)
    ensures Api.TokenKey in r && r[Api.TokenKey] == data.token
    ensures DriverIdKey in r <==> DriverIdKey in store || Truthy(data.driverId)
    ensures Truthy(data.driverId) ==> r[DriverIdKey] == data.driverId.value
    ensures !Truthy(data.driverId) && DriverIdKey in store ==> r[DriverIdKey] == store[DriverIdKey]
    ensures forall k :: k != Api.TokenKey && k != DriverIdKey ==>
      (k in r <==> k in store) && (k in store ==> r[k] == store[k])
  {
    var withToken := store[Api.TokenKey := data.token];
    if Truthy(data.driverId) then withToken[DriverIdKey := data.driverId.value] else withToken
  }

  class LoginScreen {
    var phone: string
    var password: string

    constructor ()
      ensures phone == "" && password == ""
    {
      phone := "";
      password := "";
    }

    /** The phone field's `onChangeText`. */
    method SetPhone(text: string)
      modifies this
      ensures phone == text && password == old(password)
    {
      phone := text;
    }

    /** The password field's `onChangeText`. */
    method SetPassword(text: string)
      modifies this
      ensures password == text && phone == old(phone)
    {
      password := text;
    }

    /** `handleLogin`, where `answer` is how the login request settles. */
    method HandleLogin(device: Device, answer: Outcome<AuthData>)
      modifies device
      // a blank field only raises an alert
      ensures Blank(phone) || Blank(password) ==>
        && device.alerts == old(device.alerts) + [Alert("Error", "Please enter phone and password")]
        && device.requests == old(device.requests)
        && device.store == old(device.store) && device.history == old(device.history)
      // otherwise exactly one request goes out, carrying the untrimmed fields
      ensures !Blank(phone) && !Blank(password) ==>
        device.requests == old(device.requests)
          + [Api.Issued(device.apiUrl, old(device.store), Post, LoginPath, map[], Credentials(phone, password))]
      ensures !Blank(phone) && !Blank(password) && answer.Ok? ==>
        && device.store == SavedSession(old(device.store), answer.data)
        && device.alerts == old(device.alerts) + [Alert("Success", "Login successful!")]
        && device.history == old(device.history) + [DutyRoute]
      ensures !Blank(phone) && !Blank(password) && answer.Fail? ==>
        && device.store == old(device.store) && device.history == old(device.history)
        && device.alerts == old(device.alerts)
             + [Alert("Login Failed", OrElse(answer.err.ServerError(), "Invalid credentials"))]
    {
      if Blank(phone) || Blank(password) {
        device.ShowAlert("Error", "Please enter phone and password");
        return;
      }
      var res := Api.Send(device, Post, LoginPath, map[], Credentials(phone, password), answer);
      match res
      case Ok(data) =>
        device.SetItem(Api.TokenKey, data.token);
        if Truthy(data.driverId) {
          device.SetItem(DriverIdKey, data.driverId.value);
        }
        device.ShowAlert("Success", "Login successful!");
        device.Push(DutyRoute);
      case Fail(err) =>
        device.ShowAlert("Login Failed", OrElse(err.ServerError(), "Invalid credentials"));
    }
  }

  /** A driver signs in with phone "9999999999" and password "secret" on a
      fresh device, and the server answers with token "abc" and driver "d1". */
  method FirstLogin(apiUrl: string) returns (device: Device)
    ensures device.GetItem(Api.TokenKey) == Some("abc")
    ensures device.GetItem(DriverIdKey) == Some("d1")
    ensures device.history == [DutyRoute]
    ensures device.alerts == [Alert("Success", "Login successful!")]
    ensures |device.requests| == 1 && device.requests[0].body == Credentials("9999999999", "secret")
    ensures device.requests[0].headers == map[Api.ContentTypeHeader := Api.JsonContentType]
  {
    device := new Device(apiUrl, map[]);
    var screen := new LoginScreen();
    screen.SetPhone("9999999999");
    screen.SetPassword("secret");
    assert !AllWhitespace("9999999999") by {
      assert !IsWhitespace("9999999999"[0]);
    }
    assert !AllWhitespace("secret") by {
      assert !IsWhitespace("secret"[0]);
    }
    screen.HandleLogin(device, Ok(AuthData("abc", Some("d1"))));
    ghost var sent := Api.SessionHeaders(map[], None);
    assert sent == map[Api.ContentTypeHeader := Api.JsonContentType] by {
      assert sent.Keys == {Api.ContentTypeHeader};
    }
  }
}
