/**
 * The login page (app/login/page.tsx): the rules on the email and the
 * password, checked on submit and live as each input changes, and what a
 * reply of the authentication endpoint writes to storage.
 */
module Login {
  import opened Wrappers
  import opened Patterns
  import opened FieldErrors
  import opened Session

  const EmailRequired := "Email is required"
  const EmailInvalid := "Email is invalid"
  const PasswordRequired := "Password is required"
  /** The message as the page spells it. */
  const PasswordInvalid := "Password is invaild"

  /** The email rule: empty is "required", no `\S+@\S+\.\S+` anywhere is "invalid", else "". */
  function EmailMessage(email: string): (msg: string)
    ensures msg == "" <==> email != "" && ContainsEmailLike(email)
    ensures email == "" ==> msg == EmailRequired
    ensures email != "" && !ContainsEmailLike(email) ==> msg == EmailInvalid
  {
    if email == "" then EmailRequired
    else if !ContainsEmailLike(email) then EmailInvalid
    else ""
  }

  /** The password rule: empty is "required", not strong is "invalid", else "". */
  function PasswordMessage(password: string): (msg: string)
    ensures msg == "" <==> password != "" && StrongPassword(password)
    ensures password == "" ==> msg == PasswordRequired
    ensures password != "" && !StrongPassword(password) ==> msg == PasswordInvalid
  {
    if password == "" then PasswordRequired
    else if !StrongPassword(password) then PasswordInvalid
    else ""
  }

  /** The map `validateForm` builds: a key for each refused field, holding its message. */
  ghost predicate LoginErrors(email: string, password: string, errs: Errors) {
    && errs.Keys <= {"email", "password"}
    && KeyRule(errs, "email", EmailMessage(email) != "", EmailMessage(email))
    && KeyRule(errs, "password", PasswordMessage(password) != "", PasswordMessage(password))
  }

  /** `validateForm`: the email rule, then the password rule; the form passes when no key was set. */
  method ValidateLogin(email: string, password: string) returns (newErrors: Errors, ok: bool)
    ensures LoginErrors(email, password, newErrors)
    ensures ok <==> newErrors == map[]
  {
    newErrors := map[];
    if email == "" {
      newErrors := newErrors["email" := EmailRequired];
    } else if !ContainsEmailLike(email) {
      newErrors := newErrors["email" := EmailInvalid];
    }
    if password == "" {
      newErrors := newErrors["password" := PasswordRequired];
    } else if !StrongPassword(password) {
      newErrors := newErrors["password" := PasswordInvalid];
    }
    ok := |newErrors| == 0;
    assert ok ==> newErrors.Keys == {};
  }

  /** A form that passes holds an address-like email and a password with all four character classes. */
  lemma AcceptedLoginMeaning(email: string, password: string)
    requires LoginErrors(email, password, map[])
    ensures exists i, j :: EmailLikeAt(email, i, j)
    ensures |password| >= 6 && NoLineTerminator(password)
    ensures Contains(password, Lowercase) && Contains(password, Uppercase)
    ensures Contains(password, Digit) && Contains(password, Symbol)
  {
    var none: Errors := map[];
    assert "email" !in none && "password" !in none;
    ContainsEmailLikeLocal(email);
    StrongPasswordMeaning(password);
  }

  /** The reply of the authentication request. */
  datatype AuthResponse =
    | NetworkFailure                                          // the request or the JSON decoding threw
    | Reply(ok: bool, token: Option<string>, user: Option<UserInfo>)

  /** The page's state. */
  class LoginPage {
    var email: string
    var password: string
    var errors: Errors

    constructor ()
      ensures email == "" && password == "" && errors == map[]
    {
      email := "";
      password := "";
      errors := map[];
    }

    /** The email input's `onChange`. */
    method ChangeEmail(value: string)
      modifies this`email, this`errors
      ensures email == value
      ensures errors == old(errors)["email" := EmailMessage(value)]
    {
      email := value;
      errors := errors["email" := EmailMessage(value)];
    }

    /** The password input's `onChange`. */
    method ChangePassword(value: string)
      modifies this`password, this`errors
      ensures password == value
      ensures errors == old(errors)["password" := PasswordMessage(value)]
    {
      password := value;
      errors := errors["password" := PasswordMessage(value)];
    }

    /**
     * `handleSubmit`: nothing is sent unless the form passes; a refused or
     * failed request leaves storage as it was; an accepted one stores the
     * token when there is one, stores the user or removes a stale one, and
     * moves on to the dashboard.
     */
    method Submit(storage: LocalStorage, response: AuthResponse) returns (sent: bool, navigated: bool)
      modifies this`errors, storage
      ensures LoginErrors(email, password, errors)
      ensures sent <==> errors == map[]
      ensures navigated <==> sent && response.Reply? && response.ok
      ensures !navigated ==> storage.items == old(storage.items)
      ensures navigated ==>
                var withToken := if Truthy(response.token) then old(storage.items)[TokenKey := PlainText(response.token.value)]
                                 else old(storage.items);
                storage.items == if response.user.Some? then withToken[UserKey := UserJson(response.user.value)]
                                 else withToken - {UserKey}
    {
      var newErrors, ok := ValidateLogin(email, password);
      errors := newErrors;
      sent := ok;
      if !ok {
        return sent, false;
      }
      match response
      case NetworkFailure =>
        navigated := false;
      case Reply(replyOk, token, user) =>
        if !replyOk {
          return sent, false;
        }
        if Truthy(token) {
          storage.SetItem(TokenKey, PlainText(token.value));
        }
        if user.Some? {
          storage.SetItem(UserKey, UserJson(user.value));
        } else {
          storage.RemoveItem(UserKey);
        }
        navigated := true;
    }
  }
}
