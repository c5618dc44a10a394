/**
 * The Edit Profile page (app/dashboard/profile/page.tsx): the rules on the
 * personal details and on a password change, the payload it sends, the
 * clearing of the password fields after an update, the input handler that
 * clears a field's error, and the prefill from the signed-in user.
 */
module Profile {
  import opened Wrappers
  import opened Text
  import opened Patterns
  import opened FieldErrors

  const FirstNameRequired := "First name is required"
  const LastNameRequired := "Last name is required"
  const EmailRequired := "Email is required"
  const EmailInvalid := "Email is invalid"
  const CurrentPasswordRequired := "Current password is required to change password"
  const NewPasswordRequired := "New password is required"
  const NewPasswordTooShort := "New password must be at least 6 characters"
  const PasswordsDiffer := "Passwords do not match"

  /** The page's `formData`. */
  datatype ProfileForm = ProfileForm(
    id: string,
    firstName: string,
    lastName: string,
    email: string,
    phoneNumber: string,
    currentPassword: string,
    newPassword: string,
    confirmPassword: string)

  const BlankProfile := ProfileForm("", "", "", "", "", "", "", "")

  /** A password change is attempted when any of the three password fields is non-empty. */
  predicate ChangingPassword(f: ProfileForm) {
    f.newPassword != "" || f.confirmPassword != "" || f.currentPassword != ""
  }

  /** The email rule: blank is "required", no `\S+@\S+\.\S+` anywhere is "invalid". */
  function ProfileEmailMessage(email: string): string {
    if IsBlank(email) then EmailRequired else EmailInvalid
  }

  function NewPasswordMessage(p: string): string {
    if p == "" then NewPasswordRequired else NewPasswordTooShort
  }

  /** The keys `validateForm` can set. */
  const ProfileKeys: set<string> := {"firstName", "lastName", "email", "currentPassword", "newPassword", "confirmPassword"}

  /**
   * The map `validateForm` builds: names and email are checked trimmed, and
   * the three password rules apply only while a change is attempted.
   */
  ghost predicate ProfileErrors(f: ProfileForm, errs: Errors) {
    && errs.Keys <= ProfileKeys
    && KeyRule(errs, "firstName", IsBlank(f.firstName), FirstNameRequired)
    && KeyRule(errs, "lastName", IsBlank(f.lastName), LastNameRequired)
    && KeyRule(errs, "email", IsBlank(f.email) || !ContainsEmailLike(f.email), ProfileEmailMessage(f.email))
    && KeyRule(errs, "currentPassword", ChangingPassword(f) && f.currentPassword == "", CurrentPasswordRequired)
    && KeyRule(errs, "newPassword", ChangingPassword(f) && |f.newPassword| < 6, NewPasswordMessage(f.newPassword))
    && KeyRule(errs, "confirmPassword", ChangingPassword(f) && f.newPassword != f.confirmPassword, PasswordsDiffer)
  }

  /** The rules of `ProfileErrors`, with each condition already decided. */
  predicate ProfileFlags(errs: Errors, firstBad: bool, lastBad: bool, emailMsg: Option<string>,
                         currentBad: bool, newMsg: Option<string>, confirmBad: bool)
  {
    && errs.Keys <= ProfileKeys
    && KeyRule(errs, "firstName", firstBad, FirstNameRequired)
    && KeyRule(errs, "lastName", lastBad, LastNameRequired)
    && KeyRule(errs, "email", emailMsg.Some?, if emailMsg.Some? then emailMsg.value else "")
    && KeyRule(errs, "currentPassword", currentBad, CurrentPasswordRequired)
    && KeyRule(errs, "newPassword", newMsg.Some?, if newMsg.Some? then newMsg.value else "")
    && KeyRule(errs, "confirmPassword", confirmBad, PasswordsDiffer)
  }

  lemma ProfileKeysDistinct()
    ensures "firstName" != "lastName" && "firstName" != "email" && "firstName" != "currentPassword"
    ensures "firstName" != "newPassword" && "firstName" != "confirmPassword" && "lastName" != "email"
    ensures "lastName" != "currentPassword" && "lastName" != "newPassword" && "lastName" != "confirmPassword"
    ensures "email" != "currentPassword" && "email" != "newPassword" && "email" != "confirmPassword"
    ensures "currentPassword" != "newPassword" && "currentPassword" != "confirmPassword"
    ensures "newPassword" != "confirmPassword"
  {
    assert "firstName"[0] != "lastName"[0];
    assert "email"[0] != "currentPassword"[0];
    assert "newPassword"[0] != "confirmPassword"[0];
    assert "currentPassword"[1] != "confirmPassword"[1];
  }

  /** The personal-detail `if` statements of `validateForm`, into a fresh map. */
  method PersonalErrors(firstBad: bool, lastBad: bool, emailMsg: Option<string>) returns (errs: Errors)
    ensures errs.Keys <= {"firstName", "lastName", "email"}
    ensures KeyRule(errs, "firstName", firstBad, FirstNameRequired)
    ensures KeyRule(errs, "lastName", lastBad, LastNameRequired)
    ensures KeyRule(errs, "email", emailMsg.Some?, if emailMsg.Some? then emailMsg.value else "")
  {
    ProfileKeysDistinct();
    errs := map[];
    errs := SetIf(errs, "firstName", firstBad, FirstNameRequired);
    errs := SetIf(errs, "lastName", lastBad, LastNameRequired);
    errs := SetIf(errs, "email", emailMsg.Some?, if emailMsg.Some? then emailMsg.value else "");
  }

  /** The password `if` statements of `validateForm`, into a fresh map. */
  method PasswordErrors(currentBad: bool, newMsg: Option<string>, confirmBad: bool) returns (errs: Errors)
    ensures errs.Keys <= {"currentPassword", "newPassword", "confirmPassword"}
    ensures KeyRule(errs, "currentPassword", currentBad, CurrentPasswordRequired)
    ensures KeyRule(errs, "newPassword", newMsg.Some?, if newMsg.Some? then newMsg.value else "")
    ensures KeyRule(errs, "confirmPassword", confirmBad, PasswordsDiffer)
  {
    ProfileKeysDistinct();
    errs := map[];
    errs := SetIf(errs, "currentPassword", currentBad, CurrentPasswordRequired);
    errs := SetIf(errs, "newPassword", newMsg.Some?, if newMsg.Some? then newMsg.value else "");
    errs := SetIf(errs, "confirmPassword", confirmBad, PasswordsDiffer);
  }

  /** The `if` statements of `validateForm`, one per rule, into a fresh map. */
  method ProfileErrorsFromFlags(firstBad: bool, lastBad: bool, emailMsg: Option<string>,
                                currentBad: bool, newMsg: Option<string>, confirmBad: bool) returns (newErrors: Errors)
    ensures ProfileFlags(newErrors, firstBad, lastBad, emailMsg, currentBad, newMsg, confirmBad)
  {
    ProfileKeysDistinct();
    var personal := PersonalErrors(firstBad, lastBad, emailMsg);
    var passwords := PasswordErrors(currentBad, newMsg, confirmBad);
    newErrors := personal + passwords;
  }

  /** `validateForm`: the personal rules, then the password rules when a change is attempted. */
  method ValidateProfile(f: ProfileForm) returns (newErrors: Errors, ok: bool)
    ensures ProfileErrors(f, newErrors)
    ensures ok <==> newErrors == map[]
  {
    var firstBad := Trim(f.firstName) == [];
    var lastBad := Trim(f.lastName) == [];
    var emailMsg: Option<string> := None;
    if Trim(f.email) == [] {
      emailMsg := Some(EmailRequired);
    } else if !ContainsEmailLike(f.email) {
      emailMsg := Some(EmailInvalid);
    }
    var currentBad, newMsg, confirmBad := false, None, false;
    if f.newPassword != "" || f.confirmPassword != "" || f.currentPassword != "" {
      currentBad := f.currentPassword == "";
      if f.newPassword == "" {
        newMsg := Some(NewPasswordRequired);
      } else if |f.newPassword| < 6 {
        newMsg := Some(NewPasswordTooShort);
      }
      confirmBad := f.newPassword != f.confirmPassword;
    }
    newErrors := ProfileErrorsFromFlags(firstBad, lastBad, emailMsg, currentBad, newMsg, confirmBad);
    ProfileFlagsAreProfileErrors(f, newErrors, firstBad, lastBad, emailMsg, currentBad, newMsg, confirmBad);
    ok := |newErrors| == 0;
    assert ok ==> newErrors.Keys == {};
  }

  lemma ProfileFlagsAreProfileErrors(f: ProfileForm, errs: Errors, firstBad: bool, lastBad: bool,
                                     emailMsg: Option<string>, currentBad: bool, newMsg: Option<string>, confirmBad: bool)
    requires ProfileFlags(errs, firstBad, lastBad, emailMsg, currentBad, newMsg, confirmBad)
    requires firstBad == IsBlank(f.firstName) && lastBad == IsBlank(f.lastName)
    requires emailMsg == if IsBlank(f.email) || !ContainsEmailLike(f.email) then Some(ProfileEmailMessage(f.email)) else None
    requires currentBad == (ChangingPassword(f) && f.currentPassword == "")
    requires newMsg == if ChangingPassword(f) && |f.newPassword| < 6 then Some(NewPasswordMessage(f.newPassword)) else None
    requires confirmBad == (ChangingPassword(f) && f.newPassword != f.confirmPassword)
    ensures ProfileErrors(f, errs)
  {
  }

  /** One form gives one error map. */
  lemma ProfileErrorsDetermined(f: ProfileForm, a: Errors, b: Errors)
    requires ProfileErrors(f, a) && ProfileErrors(f, b)
    ensures a == b
  {
    forall k | k in a
      ensures k in b && a[k] == b[k]
    {
      ProfileErrorsAgreeAt(f, a, b, k);
    }
    forall k | k in b
      ensures k in a
    {
      ProfileErrorsAgreeAt(f, b, a, k);
    }
  }

  /** Two maps that both follow the rules agree on each key of the first. */
  lemma ProfileErrorsAgreeAt(f: ProfileForm, a: Errors, b: Errors, k: string)
    requires ProfileErrors(f, a) && ProfileErrors(f, b) && k in a
    ensures k in b && a[k] == b[k]
  {
    if k == "firstName" {
    } else if k == "lastName" {
    } else if k == "email" {
    } else if k == "currentPassword" {
    } else if k == "newPassword" {
    } else {
      assert k == "confirmPassword";
    }
  }

  /** Without a password change no password key is ever set, whatever the other fields hold. */
  lemma NoPasswordErrorsWithoutChange(f: ProfileForm, errs: Errors)
    requires ProfileErrors(f, errs) && !ChangingPassword(f)
    ensures "currentPassword" !in errs && "newPassword" !in errs && "confirmPassword" !in errs
  {
  }

  /**
   * A form that passes has non-blank names, an address-like email, and,
   * when a password change is attempted, a current password and a new one
   * of six or more characters that its confirmation repeats.
   */
  lemma AcceptedProfileMeaning(f: ProfileForm)
    requires ProfileErrors(f, map[])
    ensures !IsBlank(f.firstName) && !IsBlank(f.lastName)
    ensures exists i, j :: EmailLikeAt(f.email, i, j)
    ensures ChangingPassword(f) ==>
              f.currentPassword != "" && |f.newPassword| >= 6 && f.confirmPassword == f.newPassword
  {
    var none: Errors := map[];
    assert "firstName" !in none && "lastName" !in none && "email" !in none;
    assert "currentPassword" !in none && "newPassword" !in none && "confirmPassword" !in none;
    ContainsEmailLikeLocal(f.email);
  }

  const PayloadFields: set<string> := {"firstName", "lastName", "email", "phoneNumber"}

  /**
   * The payload `handleSubmit` builds: the four personal fields, to which
   * the current and new passwords are added in place when a change is attempted.
   */
  method BuildProfilePayload(f: ProfileForm) returns (payload: map<string, string>)
    ensures payload.Keys == PayloadFields + (if ChangingPassword(f) then {"currentPassword", "newPassword"} else {})
    ensures "confirmPassword" !in payload && "id" !in payload
    ensures payload["firstName"] == f.firstName && payload["lastName"] == f.lastName
    ensures payload["email"] == f.email && payload["phoneNumber"] == f.phoneNumber
    ensures ChangingPassword(f) ==>
              payload["currentPassword"] == f.currentPassword && payload["newPassword"] == f.newPassword
  {
    payload := map["firstName" := f.firstName, "lastName" := f.lastName, "email" := f.email, "phoneNumber" := f.phoneNumber];
    if f.newPassword != "" || f.confirmPassword != "" || f.currentPassword != "" {
      payload := payload["currentPassword" := f.currentPassword];
      payload := payload["newPassword" := f.newPassword];
    }
  }

  /** The form after a successful update: the three password fields emptied, the rest as it was. */
  function ClearPasswords(f: ProfileForm): (r: ProfileForm)
    ensures !ChangingPassword(r)
    ensures r.currentPassword == "" && r.newPassword == "" && r.confirmPassword == ""
    ensures r.id == f.id && r.firstName == f.firstName && r.lastName == f.lastName
    ensures r.email == f.email && r.phoneNumber == f.phoneNumber
  {
    f.(currentPassword := "", newPassword := "", confirmPassword := "")
  }

  /** After the passwords are cleared the personal rules decide alone, and no password key can appear. */
  lemma ClearedFormHasNoPasswordErrors(f: ProfileForm, errs: Errors)
    requires ProfileErrors(ClearPasswords(f), errs)
    ensures errs.Keys <= {"firstName", "lastName", "email"}
  {
    NoPasswordErrorsWithoutChange(ClearPasswords(f), errs);
  }

  /** The inputs of the page, each bound to one field of the form. */
  datatype ProfileField = FirstName | LastName | Email | PhoneNumber | CurrentPassword | NewPassword | ConfirmPassword

  /** The field's name, which is also its error key. */
  function FieldKey(field: ProfileField): (k: string)
    ensures k in PayloadFields + {"currentPassword", "newPassword", "confirmPassword"}
  {
    match field
    case FirstName => "firstName"
    case LastName => "lastName"
    case Email => "email"
    case PhoneNumber => "phoneNumber"
    case CurrentPassword => "currentPassword"
    case NewPassword => "newPassword"
    case ConfirmPassword => "confirmPassword"
  }

  lemma FieldKeyInjective(a: ProfileField, b: ProfileField)
    ensures FieldKey(a) == FieldKey(b) ==> a == b
  {
    if a != b {
      match a
      case FirstName => assert FieldKey(a)[0] == 'f';
      case LastName => assert FieldKey(a)[0] == 'l';
      case Email => assert FieldKey(a)[0] == 'e';
      case PhoneNumber => assert FieldKey(a)[0] == 'p';
      case CurrentPassword => assert FieldKey(a)[..2] == "cu";
      case NewPassword => assert FieldKey(a)[0] == 'n';
      case ConfirmPassword => assert FieldKey(a)[..2] == "co";
    }
  }

  function GetField(f: ProfileForm, field: ProfileField): string {
    match field
    case FirstName => f.firstName
    case LastName => f.lastName
    case Email => f.email
    case PhoneNumber => f.phoneNumber
    case CurrentPassword => f.currentPassword
    case NewPassword => f.newPassword
    case ConfirmPassword => f.confirmPassword
  }

  /** `{ ...prev, [field]: value }`. */
  function SetField(f: ProfileForm, field: ProfileField, value: string): (r: ProfileForm)
    ensures GetField(r, field) == value
    ensures forall other :: other != field ==> GetField(r, other) == GetField(f, other)
    ensures r.id == f.id
  {
    match field
    case FirstName => f.(firstName := value)
    case LastName => f.(lastName := value)
    case Email => f.(email := value)
    case PhoneNumber => f.(phoneNumber := value)
    case CurrentPassword => f.(currentPassword := value)
    case NewPassword => f.(newPassword := value)
    case ConfirmPassword => f.(confirmPassword := value)
  }

  /** The error map after typing in a field: a non-empty error of that field becomes "", nothing else changes. */
  function ClearFieldError(errs: Errors, key: string): (r: Errors)
    ensures r.Keys == errs.Keys
    ensures key in errs && errs[key] != "" ==> r[key] == ""
    ensures forall k :: k in errs && (k != key || errs[k] == "") ==> r[k] == errs[k]
  {
    if key in errs && errs[key] != "" then errs[key := ""] else errs
  }

  /** Typing clears only the typed field's message: afterwards it shows nothing, every other message stays. */
  lemma ClearFieldErrorSilencesOnlyThatField(errs: Errors, field: ProfileField)
    ensures var r := ClearFieldError(errs, FieldKey(field));
            (FieldKey(field) in r ==> r[FieldKey(field)] == "") &&
            forall other :: other != field && FieldKey(other) in errs ==> r[FieldKey(other)] == errs[FieldKey(other)]
  {
    forall other | other != field
      ensures FieldKey(other) != FieldKey(field)
    {
      FieldKeyInjective(other, field);
    }
  }

  /** The user record `getMe` returns; `None` is a missing or null property. */
  datatype MeUser = MeUser(id: string, firstName: Option<string>, lastName: Option<string>,
                           email: Option<string>, phoneNumber: Printable)

  /** The prefill: a returned user fills the personal fields, missing ones as ""; the passwords are kept. */
  function Prefill(prev: ProfileForm, user: Option<MeUser>): (r: ProfileForm)
    ensures user.None? ==> r == prev
    ensures user.Some? ==>
              r.id == user.value.id && r.phoneNumber == ToText(user.value.phoneNumber)
              && r.firstName == (if Truthy(user.value.firstName) then user.value.firstName.value else "")
              && r.lastName == (if Truthy(user.value.lastName) then user.value.lastName.value else "")
              && r.email == (if Truthy(user.value.email) then user.value.email.value else "")
    ensures r.currentPassword == prev.currentPassword && r.newPassword == prev.newPassword
    ensures r.confirmPassword == prev.confirmPassword
  {
    match user
    case None => prev
    case Some(u) =>
      prev.(id := u.id,
            firstName := if Truthy(u.firstName) then u.firstName.value else "",
            lastName := if Truthy(u.lastName) then u.lastName.value else "",
            email := if Truthy(u.email) then u.email.value else "",
            phoneNumber := ToText(u.phoneNumber))
  }

  /** The page's state. */
  class ProfilePage {
    var form: ProfileForm
    var errors: Errors

    constructor ()
      ensures form == BlankProfile && errors == map[]
    {
      form := BlankProfile;
      errors := map[];
    }

    /** The mount effect; a failed request leaves the form as it was. */
    method Load(user: Option<MeUser>)
      modifies this`form
      ensures form == Prefill(old(form), user)
    {
      form := Prefill(form, user);
    }

    /** `handleInputChange(field, value)`. */
    method ChangeInput(field: ProfileField, value: string)
      modifies this
      ensures form == SetField(old(form), field, value)
      ensures errors == ClearFieldError(old(errors), FieldKey(field))
    {
      form := SetField(form, field, value);
      if FieldKey(field) in errors && errors[FieldKey(field)] != "" {
        errors := errors[FieldKey(field) := ""];
      }
    }

    /**
     * `handleSubmit`: nothing is sent unless the form passes; after a
     * successful update the password fields are emptied and the page moves
     * on; a failed update changes nothing.
     */
    method Submit(updateOk: bool) returns (payload: Option<map<string, string>>, navigated: bool)
      modifies this
      ensures ProfileErrors(old(form), errors)
      ensures payload.None? <==> errors != map[]
      ensures payload.Some? ==> "confirmPassword" !in payload.value
      ensures payload.Some? ==>
                payload.value.Keys == PayloadFields + (if ChangingPassword(old(form)) then {"currentPassword", "newPassword"} else {})
      ensures payload.Some? ==>
                payload.value["firstName"] == old(form).firstName && payload.value["lastName"] == old(form).lastName
      ensures payload.Some? ==> payload.value["email"] == old(form).email && payload.value["phoneNumber"] == old(form).phoneNumber
      ensures payload.Some? && ChangingPassword(old(form)) ==>
                payload.value["currentPassword"] == old(form).currentPassword
                && payload.value["newPassword"] == old(form).newPassword
      ensures navigated <==> payload.Some? && updateOk
      ensures navigated ==> form == ClearPasswords(old(form))
      ensures !navigated ==> form == old(form)
    {
      var newErrors, ok := ValidateProfile(form);
      errors := newErrors;
      if !ok {
        return None, false;
      }
      var body := BuildProfilePayload(form);
      payload := Some(body);
      if updateOk {
        form := ClearPasswords(form);
        navigated := true;
      } else {
        navigated := false;
      }
    }
  }
}
