/** The sign-up screen: the login flow's shape with a third field, its own
    endpoint and messages, and a different destination. */
module Signup {
  import opened JsText
  import opened Platform
  import Api
  import Login

  const RegisterPath: string := "/api/auth/register"
  const SharingRoute: string := "/location-sharing"

  /** Whether `handleSignup` stops at validation: some field is empty once
      trimmed. */
  predicate MissingField(name: string, phone: string, password: string): (missing: bool)
    ensures missing <==> AllWhitespace(name) || AllWhitespace(phone) || AllWhitespace(password)
  {
    Blank(name) || Blank(phone) || Blank(password)
  }

  class SignupScreen {
    var name: string
    var phone: string
    var password: string

    constructor ()
      ensures name == "" && phone == "" && password == ""
    {
      name := "";
      phone := "";
      password := "";
    }

    /** The name field's `onChangeText`. */
    method SetName(text: string)
      modifies this
      ensures name == text && phone == old(phone) && password == old(password)
    {
      name := text;
    }

    /** The phone field's `onChangeText`. */
    method SetPhone(text: string)
      modifies this
      ensures phone == text && name == old(name) && password == old(password)
    {
      phone := text;
    }

    /** The password field's `onChangeText`. */
    method SetPassword(text: string)
      modifies this
      ensures password == text && name == old(name) && phone == old(phone)
    {
      password := text;
    }

    /** `handleSignup`, where `answer` is how the register request settles. */
    method HandleSignup(device: Device, answer: Outcome<Login.AuthData>)
      modifies device
      ensures MissingField(name, phone, password) ==>
        && device.alerts == old(device.alerts) + [Alert("Error", "All fields are required")]
        && device.requests == old(device.requests)
        && device.store == old(device.store) && device.history == old(device.history)
      ensures !MissingField(name, phone, password) ==>
        device.requests == old(device.requests)
          + [Api.Issued(device.apiUrl, old(device.store), Post, RegisterPath, map[],
                        Registration(name, phone, password))]
      ensures !MissingField(name, phone, password) && answer.Ok? ==>
        && device.store == Login.SavedSession(old(device.store), answer.data)
        && device.alerts == old(device.alerts) + [Alert("Success", "Account created successfully!")]
        && device.history == old(device.history) + [SharingRoute]
      ensures !MissingField(name, phone, password) && answer.Fail? ==>
        && device.store == old(device.store) && device.history == old(device.history)
        && device.alerts == old(device.alerts)
             + [Alert("Signup Failed", OrElse(answer.err.ServerError(), "Something went wrong"))]
    {
      if Blank(name) || Blank(phone) || Blank(password) {
        device.ShowAlert("Error", "All fields are required");
        return;
      }
      var res := Api.Send(device, Post, RegisterPath, map[], Registration(name, phone, password), answer);
      match res
      case Ok(data) =>
        device.SetItem(Api.TokenKey, data.token);
        if Truthy(data.driverId) {
          device.SetItem(Login.DriverIdKey, data.driverId.value);
        }
        device.ShowAlert("Success", "Account created successfully!");
        device.Push(SharingRoute);
      case Fail(err) =>
        device.ShowAlert("Signup Failed", OrElse(err.ServerError(), "Something went wrong"));
    }
  }
}
