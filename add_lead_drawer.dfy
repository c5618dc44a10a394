/**
 * The Add Lead drawer (components/add-lead-drawer.tsx): its validation of
 * the whole form on submit, the live checks of each input, the list of email
 * inputs with its per-index error keys, and the payload it posts.
 */
module AddLead {
  import opened Wrappers
  import opened Text
  import opened Patterns
  import opened FieldErrors
  import opened LeadForms

  const WorkEmailInvalid := "Work Email is invalid"
  const FirstNameRequired := "First Name is required"
  const IndustryRequired := "Industry is required"
  const WhatsAppRequired := "whatsUpNumber is required"
  const WhatsAppTooShort := "WhatsApp number must be at least 10 digits"
  const EmailsRequired := " email is required"
  const EmailsInvalid := "Please enter valid email(s)"
  const EmailInvalid := "Email is invalid"
  const EmailRequired := "Email is required"

  lemma LeadFieldKeysDistinct()
    ensures "workEmail" != "firstName" && "workEmail" != "industry" && "workEmail" != "whatsUpNumber"
    ensures "workEmail" != "emails" && "firstName" != "industry" && "firstName" != "whatsUpNumber"
    ensures "firstName" != "emails" && "industry" != "whatsUpNumber" && "industry" != "emails"
    ensures "whatsUpNumber" != "emails"
  {
    assert "workEmail"[0] != "firstName"[0];
    assert "emails"[0] != "industry"[0];
  }

  predicate AllBlank(list: seq<string>) {
    forall i :: 0 <= i < |list| ==> IsBlank(list[i])
  }

  predicate SomeInvalid(list: seq<string>) {
    exists i :: 0 <= i < |list| && !ValidEmail(list[i])
  }

  /** The message of an empty or short WhatsApp number on submit. */
  function WhatsAppSubmitMessage(w: string): string {
    if w == "" then WhatsAppRequired else WhatsAppTooShort
  }

  /** The message of a refused email list on submit. */
  function EmailsMessage(emails: seq<string>): string {
    if emails == [] || AllBlank(emails) then EmailsRequired else EmailsInvalid
  }

  /** The map `validateForm` builds, rule by rule. */
  ghost predicate AddFormErrors(form: LeadForm, emails: seq<string>, errs: Errors) {
    && errs.Keys <= {"workEmail", "firstName", "industry", "whatsUpNumber", "emails"}
    // workEmail is optional: checked only when non-empty
    && KeyRule(errs, "workEmail", form.workEmail != "" && !ValidEmail(form.workEmail), WorkEmailInvalid)
    && KeyRule(errs, "firstName", form.firstName == "", FirstNameRequired)
    && KeyRule(errs, "industry", form.industry == "", IndustryRequired)
    && KeyRule(errs, "whatsUpNumber", |form.whatsUpNumber| < 10, WhatsAppSubmitMessage(form.whatsUpNumber))
    // an empty or all-blank list is "required"; otherwise any entry the pattern refuses, blank or not, is "invalid"
    && KeyRule(errs, "emails", emails == [] || AllBlank(emails) || SomeInvalid(emails), EmailsMessage(emails))
  }

  /** The five rules of `AddFormErrors`, with each condition already decided. */
  predicate FlagErrors(errs: Errors, workBad: bool, firstBad: bool, industryBad: bool, whatsMsg: Option<string>,
                       emailsMsg: Option<string>)
  {
    && errs.Keys <= {"workEmail", "firstName", "industry", "whatsUpNumber", "emails"}
    && KeyRule(errs, "workEmail", workBad, WorkEmailInvalid)
    && KeyRule(errs, "firstName", firstBad, FirstNameRequired)
    && KeyRule(errs, "industry", industryBad, IndustryRequired)
    && KeyRule(errs, "whatsUpNumber", whatsMsg.Some?, if whatsMsg.Some? then whatsMsg.value else "")
    && KeyRule(errs, "emails", emailsMsg.Some?, if emailsMsg.Some? then emailsMsg.value else "")
  }

  /** The first three `if` statements of `validateForm`, into a fresh map. */
  method FieldRuleErrors(workBad: bool, firstBad: bool, industryBad: bool) returns (errs: Errors)
    ensures errs.Keys <= {"workEmail", "firstName", "industry"}
    ensures KeyRule(errs, "workEmail", workBad, WorkEmailInvalid)
    ensures KeyRule(errs, "firstName", firstBad, FirstNameRequired)
    ensures KeyRule(errs, "industry", industryBad, IndustryRequired)
  {
    LeadFieldKeysDistinct();
    errs := map[];
    errs := SetIf(errs, "workEmail", workBad, WorkEmailInvalid);
    errs := SetIf(errs, "firstName", firstBad, FirstNameRequired);
    errs := SetIf(errs, "industry", industryBad, IndustryRequired);
  }

  /** The `if` statements of `validateForm`, one per rule, into a fresh map. */
  method AddErrorsFromFlags(workBad: bool, firstBad: bool, industryBad: bool, whatsMsg: Option<string>,
                            emailsMsg: Option<string>) returns (newErrors: Errors)
    ensures FlagErrors(newErrors, workBad, firstBad, industryBad, whatsMsg, emailsMsg)
  {
    LeadFieldKeysDistinct();
    newErrors := FieldRuleErrors(workBad, firstBad, industryBad);
    newErrors := SetIf(newErrors, "whatsUpNumber", whatsMsg.Some?, if whatsMsg.Some? then whatsMsg.value else "");
    newErrors := SetIf(newErrors, "emails", emailsMsg.Some?, if emailsMsg.Some? then emailsMsg.value else "");
  }

  /** `validateForm`: the field rules, then the email list's; the form passes when the map stays empty. */
  method ValidateLead(form: LeadForm, emails: seq<string>) returns (newErrors: Errors, ok: bool)
    ensures AddFormErrors(form, emails, newErrors)
    ensures ok <==> newErrors == map[]
  {
    var workBad := form.workEmail != "" && !ValidEmail(form.workEmail);
    var firstBad := form.firstName == "";
    var industryBad := form.industry == "";
    var whatsMsg: Option<string> := None;
    if form.whatsUpNumber == "" {
      whatsMsg := Some(WhatsAppRequired);
    } else if |form.whatsUpNumber| < 10 {
      whatsMsg := Some(WhatsAppTooShort);
    }
    var emailsMsg := EmailsVerdict(emails);
    newErrors := AddErrorsFromFlags(workBad, firstBad, industryBad, whatsMsg, emailsMsg);
    FlagErrorsAreFormErrors(form, emails, newErrors, workBad, firstBad, industryBad, whatsMsg, emailsMsg);
    ok := |newErrors| == 0;
    assert ok ==> newErrors.Keys == {};
  }

  /** The email list's part of `validateForm`: "required" before "invalid". */
  method EmailsVerdict(emails: seq<string>) returns (msg: Option<string>)
    ensures msg == if emails == [] || AllBlank(emails) || SomeInvalid(emails) then Some(EmailsMessage(emails)) else None
  {
    var everyBlank := forall i | 0 <= i < |emails| :: Trim(emails[i]) == [];
    var someInvalid := exists i | 0 <= i < |emails| :: !ValidEmail(emails[i]);
    assert everyBlank == AllBlank(emails) && someInvalid == SomeInvalid(emails);
    if |emails| == 0 || everyBlank {
      msg := Some(EmailsRequired);
    } else if someInvalid {
      msg := Some(EmailsInvalid);
    } else {
      msg := None;
    }
  }

  lemma FlagErrorsAreFormErrors(form: LeadForm, emails: seq<string>, errs: Errors, workBad: bool, firstBad: bool,
                                industryBad: bool, whatsMsg: Option<string>, emailsMsg: Option<string>)
    requires FlagErrors(errs, workBad, firstBad, industryBad, whatsMsg, emailsMsg)
    requires workBad == (form.workEmail != "" && !ValidEmail(form.workEmail))
    requires firstBad == (form.firstName == "") && industryBad == (form.industry == "")
    requires whatsMsg == if |form.whatsUpNumber| < 10 then Some(WhatsAppSubmitMessage(form.whatsUpNumber)) else None
    requires emailsMsg == if emails == [] || AllBlank(emails) || SomeInvalid(emails) then Some(EmailsMessage(emails)) else None
    ensures AddFormErrors(form, emails, errs)
  {
  }

  /** The rules leave no freedom: one form and one list give one error map. */
  lemma AddFormErrorsDetermined(form: LeadForm, emails: seq<string>, a: Errors, b: Errors)
    requires AddFormErrors(form, emails, a) && AddFormErrors(form, emails, b)
    ensures a == b
  {
    forall k | k in a
      ensures k in b && a[k] == b[k]
    {
      AddFormErrorsAgreeAt(form, emails, a, b, k);
    }
    forall k | k in b
      ensures k in a
    {
      AddFormErrorsAgreeAt(form, emails, b, a, k);
    }
  }

  /** Two maps that both follow the rules agree on each key of the first. */
  lemma AddFormErrorsAgreeAt(form: LeadForm, emails: seq<string>, a: Errors, b: Errors, k: string)
    requires AddFormErrors(form, emails, a) && AddFormErrors(form, emails, b) && k in a
    ensures k in b && a[k] == b[k]
  {
    if k == "workEmail" {
    } else if k == "firstName" {
    } else if k == "industry" {
    } else if k == "whatsUpNumber" {
    } else {
      assert k == "emails";
    }
  }

  /** A form that passes has every required field, a WhatsApp number of ten or more characters and a list of well-formed addresses. */
  lemma {:induction false} AcceptedLeadIsComplete(form: LeadForm, emails: seq<string>)
    requires AddFormErrors(form, emails, map[])
    ensures form.firstName != "" && form.industry != "" && |form.whatsUpNumber| >= 10
    ensures form.workEmail == "" || ValidEmail(form.workEmail)
    ensures |emails| >= 1
    ensures forall i :: 0 <= i < |emails| ==> ValidEmail(emails[i]) && !IsBlank(emails[i])
  {
    forall i | 0 <= i < |emails|
      ensures ValidEmail(emails[i]) && !IsBlank(emails[i])
    {
      assert !SomeInvalid(emails);
      ValidEmailShape(emails[i]);
    }
  }

  /**
   * The email keys after an edit or a removal: every `email_*` key and `emails`
   * is dropped from the previous map, the rest is kept; `email_i` marks each
   * non-blank entry the pattern refuses; `emails` marks a non-empty, all-blank list.
   */
  ghost predicate EmailErrorsRecomputed(prev: Errors, list: seq<string>, next: Errors) {
    && (forall k :: !IsEmailKey(k) && k != "emails" ==> (k in next <==> k in prev))
    && (forall k :: !IsEmailKey(k) && k != "emails" && k in prev ==> next[k] == prev[k])
    && (forall i :: 0 <= i < |list| ==> (EmailKey(i) in next <==> !IsBlank(list[i]) && !ValidEmail(list[i])))
    && (forall i :: 0 <= i < |list| && EmailKey(i) in next ==> next[EmailKey(i)] == EmailInvalid)
    && (forall k :: k in next && IsEmailKey(k) ==> exists i :: 0 <= i < |list| && k == EmailKey(i))
    && ("emails" in next <==> list != [] && AllBlank(list))
    && ("emails" in next ==> next["emails"] == EmailRequired)
  }

  /** The `setErrors((prev) => ...)` updater that `handleEmailChange` and `removeEmailField` share. */
  method RecomputeEmailErrors(prev: Errors, list: seq<string>) returns (next: Errors)
    ensures EmailErrorsRecomputed(prev, list, next)
  {
    FieldKeysAreNotEmailKeys();
    var base := DeleteKeys(prev, set k | k in prev && (IsEmailKey(k) || k == "emails"));
    var hasError;
    next, hasError := MarkInvalidEmails(base, list);
    if list != [] && AllBlank(list) {
      assert IsBlank(list[0]);
    }
    if hasError && forall j | 0 <= j < |list| :: Trim(list[j]) == [] {
      next := next["emails" := EmailRequired];
    }
    forall j | 0 <= j < |list| && IsBlank(list[j])
      ensures !ValidEmail(list[j])
    {
      BlankIsNotValidEmail(list[j]);
    }
  }

  /**
   * The `forEach` of `handleEmailChange`: `email_i` for each non-blank
   * malformed input; `hasError` records whether any input was blank or malformed.
   */
  method MarkInvalidEmails(base: Errors, list: seq<string>) returns (next: Errors, hasError: bool)
    requires forall k :: k in base ==> !IsEmailKey(k) && k != "emails"
    ensures forall k :: !IsEmailKey(k) ==> (k in next <==> k in base)
    ensures forall k :: k in base ==> next[k] == base[k]
    ensures forall j :: 0 <= j < |list| ==> (EmailKey(j) in next <==> !IsBlank(list[j]) && !ValidEmail(list[j]))
    ensures forall j :: 0 <= j < |list| && EmailKey(j) in next ==> next[EmailKey(j)] == EmailInvalid
    ensures forall k :: k in next && IsEmailKey(k) ==> exists j :: 0 <= j < |list| && k == EmailKey(j)
    ensures hasError <==> exists j :: 0 <= j < |list| && (IsBlank(list[j]) || !ValidEmail(list[j]))
  {
    FieldKeysAreNotEmailKeys();
    next := base;
    hasError := false;
    var i := 0;
    while i < |list|
      invariant 0 <= i <= |list|
      invariant forall k :: !IsEmailKey(k) ==> (k in next <==> k in base)
      invariant forall k :: k in base ==> next[k] == base[k]
      invariant forall j :: 0 <= j < |list| ==> (EmailKey(j) in next <==> j < i && !IsBlank(list[j]) && !ValidEmail(list[j]))
      invariant forall j :: 0 <= j < |list| && EmailKey(j) in next ==> next[EmailKey(j)] == EmailInvalid
      invariant forall k :: k in next && IsEmailKey(k) ==> exists j :: 0 <= j < i && k == EmailKey(j)
      invariant hasError <==> exists j :: 0 <= j < i && (IsBlank(list[j]) || !ValidEmail(list[j]))
    {
      var e := list[i];
      forall j | 0 <= j < |list| && j != i
        ensures EmailKey(j) != EmailKey(i)
      {
        EmailKeyInjective(i, j);
      }
      if Trim(e) == [] {
        hasError := true;
      } else if !ValidEmail(e) {
        next := next[EmailKey(i) := EmailInvalid];
        hasError := true;
      }
      i := i + 1;
    }
  }

  /** The updater's outcome is a function of the previous map and the list. */
  lemma EmailErrorsDetermined(prev: Errors, list: seq<string>, a: Errors, b: Errors)
    requires EmailErrorsRecomputed(prev, list, a) && EmailErrorsRecomputed(prev, list, b)
    ensures a == b
  {
    forall k | k in a
      ensures k in b && a[k] == b[k]
    {
      EmailErrorsAgreeAt(prev, list, a, b, k);
    }
    forall k | k in b
      ensures k in a
    {
      EmailErrorsAgreeAt(prev, list, b, a, k);
    }
  }

  /** Two outcomes of the updater agree on each key of the first. */
  lemma EmailErrorsAgreeAt(prev: Errors, list: seq<string>, a: Errors, b: Errors, k: string)
    requires EmailErrorsRecomputed(prev, list, a) && EmailErrorsRecomputed(prev, list, b) && k in a
    ensures k in b && a[k] == b[k]
  {
    if IsEmailKey(k) {
      var i :| 0 <= i < |list| && k == EmailKey(i);
    }
  }

  /** `RequiredMessage`: the live rule of First Name and Industry, the message or "" once filled. */
  function RequiredMessage(value: string, message: string): (msg: string)
    requires message != ""
    ensures msg == "" <==> !IsBlank(value)
    ensures msg != "" ==> msg == message
  {
    if Trim(value) == [] then message else ""
  }

  /** The WhatsApp input's live rule, on the digits its field passes on. */
  function WhatsAppMessage(digits: string): (msg: string)
    ensures msg == "" <==> !IsBlank(digits) && |digits| >= 10
    ensures IsBlank(digits) ==> msg == "WhatsApp Number is required"
    ensures !IsBlank(digits) && |digits| < 10 ==> msg == WhatsAppTooShort
  {
    if Trim(digits) == [] then "WhatsApp Number is required"
    else if |digits| < 10 then WhatsAppTooShort
    else ""
  }

  /** The live rule of an optional field: its key is set while the value is non-blank and refused, and deleted otherwise. */
  function OptionalFieldErrors(prev: Errors, key: string, value: string, accepted: bool, message: string): (r: Errors)
    ensures key in r <==> !IsBlank(value) && !accepted
    ensures key in r ==> r[key] == message
    ensures forall k :: k != key ==> (k in r <==> k in prev) && (k in r ==> r[k] == prev[k])
  {
    if Trim(value) != [] && !accepted then prev[key := message] else prev - {key}
  }

  /** The Work Email input's live rule. */
  function WorkEmailErrors(prev: Errors, value: string): (r: Errors)
    ensures "workEmail" in r <==> !IsBlank(value) && !ValidEmail(value)
  {
    OptionalFieldErrors(prev, "workEmail", value, ValidEmail(value), WorkEmailInvalid)
  }

  /** The URL inputs' live rule: the trimmed value must start with http:// or https://, in any case. */
  function UrlErrors(prev: Errors, key: string, value: string, message: string): (r: Errors)
    ensures key in r <==> !IsBlank(value) && !StartsWithHttp(Trim(value))
  {
    OptionalFieldErrors(prev, key, value, StartsWithHttp(Trim(value)), message)
  }

  /** The payload of `handleSubmit`: the form, the list as it is, blank optional fields as null. */
  function AddPayload(form: LeadForm, userId: string, emails: seq<string>): (p: LeadPayload)
    ensures CarriesForm(p, form) && OptionalFieldsNormalised(p)
    ensures p.email == emails && p.userId == userId && p.updatedBy == None
  {
    LeadPayload(form.firstName, form.industry, form.whatsUpNumber, form.status, form.priority,
                NullIfBlank(form.workEmail), NullIfBlank(form.websiteURL), NullIfBlank(form.linkdinURL),
                emails, userId, None)
  }

  /** `String(val[0])` for an array, `String(val)` otherwise; an empty array's first element is undefined. */
  function FieldMessage(v: FieldValue): string {
    match v
    case Message(t) => t
    case Messages(ts) => if ts == [] then "undefined" else ts[0]
  }

  /**
   * The entries `Object.entries(server.errors)` yields when `errors` is an
   * object; an array is an object too, keyed by its indices.
   */
  function FieldErrorEntries(errors: ServerErrors): (es: seq<(string, string)>)
    ensures errors.ErrorObject? ==>
              |es| == |errors.entries| &&
              forall i :: 0 <= i < |es| ==> es[i] == (errors.entries[i].0, FieldMessage(errors.entries[i].1))
    ensures errors.ErrorList? ==>
              |es| == |errors.items| && forall i :: 0 <= i < |es| ==> es[i] == (NatToString(i), errors.items[i])
    ensures errors.NoErrors? || errors.ErrorText? ==> es == []
  {
    match errors
    case ErrorObject(entries) => seq(|entries|, i requires 0 <= i < |entries| => (entries[i].0, FieldMessage(entries[i].1)))
    case ErrorList(items) => seq(|items|, i requires 0 <= i < |items| => (NatToString(i), items[i]))
    case _ => []
  }

  /** The keys `Object.entries` gives an array of length `n`: its indices in decimal. */
  function IndexKeys(n: nat): (keys: set<string>)
    ensures forall i :: 0 <= i < n ==> NatToString(i) in keys
    ensures forall k :: k in keys ==> k != "" && IsDigit(k[0])
  {
    set i | 0 <= i < n :: NatToString(i)
  }

  /**
   * An array of messages reports one error per element, under the keys
   * "0", "1", …, and none of them is the "form" key the banner uses.
   */
  lemma ListErrorsByIndex(items: seq<string>)
    ensures Overlay(FieldErrorEntries(ErrorList(items))).Keys == IndexKeys(|items|)
    ensures forall i :: 0 <= i < |items| ==> Overlay(FieldErrorEntries(ErrorList(items)))[NatToString(i)] == items[i]
    ensures "form" !in Overlay(FieldErrorEntries(ErrorList(items)))
  {
    var es := FieldErrorEntries(ErrorList(items));
    OverlayMeaning(es);
    IndexEntriesDistinct(items);
    IndexEntriesKeys(items);
  }

  /** No two entries of an array share a key. */
  lemma IndexEntriesDistinct(items: seq<string>)
    ensures var es := FieldErrorEntries(ErrorList(items));
            forall i, j :: 0 <= i < j < |es| ==> es[j].0 != es[i].0
  {
    var es := FieldErrorEntries(ErrorList(items));
    forall i, j | 0 <= i < j < |es|
      ensures es[j].0 != es[i].0
    {
      if es[j].0 == es[i].0 {
        NatToStringInjective(j, i);
      }
    }
  }

  /** The keys of an array's entries are its indices. */
  lemma IndexEntriesKeys(items: seq<string>)
    ensures (set e | e in FieldErrorEntries(ErrorList(items)) :: e.0) == IndexKeys(|items|)
  {
    var es := FieldErrorEntries(ErrorList(items));
    var keys := set e | e in es :: e.0;
    var indices := IndexKeys(|items|);
    forall x ensures x in keys <==> x in indices {
      if x in keys {
        var e :| e in es && e.0 == x;
        var i :| 0 <= i < |es| && es[i] == e;
        assert NatToString(i) in indices;
      }
      if x in indices {
        var i :| 0 <= i < |items| && NatToString(i) == x;
        assert es[i] in es;
      }
    }
  }

  /**
   * An object reports an error under each of its keys, and the message is
   * the last entry's value for that key (its first element for an array).
   */
  lemma ObjectErrorsByKey(entries: seq<(string, FieldValue)>)
    ensures Overlay(FieldErrorEntries(ErrorObject(entries))).Keys == set e | e in entries :: e.0
    ensures forall i :: 0 <= i < |entries| && (forall j :: i < j < |entries| ==> entries[j].0 != entries[i].0)
              ==> Overlay(FieldErrorEntries(ErrorObject(entries)))[entries[i].0] == FieldMessage(entries[i].1)
  {
    var es := FieldErrorEntries(ErrorObject(entries));
    OverlayMeaning(es);
    var keys := set e | e in es :: e.0;
    var named := set e | e in entries :: e.0;
    forall x ensures x in keys <==> x in named {
      if x in keys {
        var e :| e in es && e.0 == x;
        var i :| 0 <= i < |es| && es[i] == e;
        assert entries[i] in entries;
      }
      if x in named {
        var e :| e in entries && e.0 == x;
        var i :| 0 <= i < |entries| && entries[i] == e;
        assert es[i] in es;
      }
    }
    assert keys == named;
  }

  /** How the create request ended. */
  datatype SaveResponse = Saved | Rejected(server: ServerBody, errMessage: Option<string>)

  /** The drawer's state. */
  class AddLeadDrawer {
    var form: LeadForm
    var userId: string
    var emails: seq<string>
    var errors: Errors

    /** The list always shows at least its first input, which cannot be removed. */
    ghost predicate Valid()
      reads this
    {
      |emails| >= 1
    }

    constructor (currentUserId: string)
      ensures Valid()
      ensures form == BlankLeadForm && userId == currentUserId && emails == [""] && errors == map[]
    {
      form := BlankLeadForm;
      userId := currentUserId;
      emails := [""];
      errors := map[];
    }

    /** The effect that runs when `open` or `currentUserId` changes: an open drawer starts blank. */
    method Reset(open: bool, currentUserId: string)
      requires Valid()
      modifies this
      ensures Valid()
      ensures open ==> form == BlankLeadForm && userId == currentUserId && emails == [""] && errors == map[]
      ensures !open ==> form == old(form) && userId == old(userId) && emails == old(emails) && errors == old(errors)
    {
      if open {
        form := BlankLeadForm;
        userId := currentUserId;
        emails := [""];
        errors := map[];
      }
    }

    /** `PhoneNumberField.handleChange` and the drawer's `onChange`: keep the digits, then check them. */
    method ChangeWhatsApp(raw: string)
      modifies this
      ensures form == old(form).(whatsUpNumber := KeepDigits(raw))
      ensures errors == old(errors)["whatsUpNumber" := WhatsAppMessage(KeepDigits(raw))]
      ensures emails == old(emails) && userId == old(userId)
    {
      var digits := KeepDigits(raw);
      form := form.(whatsUpNumber := digits);
      errors := errors["whatsUpNumber" := WhatsAppMessage(digits)];
    }

    method ChangeFirstName(value: string)
      modifies this
      ensures form == old(form).(firstName := value)
      ensures errors == old(errors)["firstName" := RequiredMessage(value, "FirstName is required")]
      ensures emails == old(emails) && userId == old(userId)
    {
      form := form.(firstName := value);
      errors := errors["firstName" := RequiredMessage(value, "FirstName is required")];
    }

    method ChangeIndustry(value: string)
      modifies this
      ensures form == old(form).(industry := value)
      ensures errors == old(errors)["industry" := RequiredMessage(value, IndustryRequired)]
      ensures emails == old(emails) && userId == old(userId)
    {
      form := form.(industry := value);
      errors := errors["industry" := RequiredMessage(value, IndustryRequired)];
    }

    method ChangeWorkEmail(value: string)
      modifies this
      ensures form == old(form).(workEmail := value)
      ensures errors == WorkEmailErrors(old(errors), value)
      ensures emails == old(emails) && userId == old(userId)
    {
      form := form.(workEmail := value);
      errors := WorkEmailErrors(errors, value);
    }

    method ChangeWebsiteURL(value: string)
      modifies this
      ensures form == old(form).(websiteURL := value)
      ensures errors == UrlErrors(old(errors), "websiteURL", value, "Website URL should start with http or https")
      ensures emails == old(emails) && userId == old(userId)
    {
      form := form.(websiteURL := value);
      errors := UrlErrors(errors, "websiteURL", value, "Website URL should start with http or https");
    }

    method ChangeLinkdinURL(value: string)
      modifies this
      ensures form == old(form).(linkdinURL := value)
      ensures errors == UrlErrors(old(errors), "linkdinURL", value, "LinkedIn URL should start with http or https")
      ensures emails == old(emails) && userId == old(userId)
    {
      form := form.(linkdinURL := value);
      errors := UrlErrors(errors, "linkdinURL", value, "LinkedIn URL should start with http or https");
    }

    /** The status and priority selects change their field and no error. */
    method ChangeStatus(value: string)
      modifies this`form
      ensures form == old(form).(status := value)
    {
      form := form.(status := value);
    }

    method ChangePriority(value: string)
      modifies this`form
      ensures form == old(form).(priority := value)
    {
      form := form.(priority := value);
    }

    /** `handleEmailChange(index, value)`: the input at `index` takes the value, the email keys are recomputed. */
    method ChangeEmail(index: nat, value: string)
      requires Valid() && index < |emails|
      modifies this`emails, this`errors
      ensures Valid()
      ensures emails == old(emails)[index := value]
      ensures EmailErrorsRecomputed(old(errors), emails, errors)
    {
      var newEmail := emails[index := value];
      emails := newEmail;
      errors := RecomputeEmailErrors(errors, newEmail);
    }

    /** `addEmailField`: one more, empty, input. */
    method AddEmailField()
      requires Valid()
      modifies this`emails
      ensures Valid()
      ensures emails == WithBlankSlot(old(emails))
    {
      emails := emails + [""];
    }

    /** `removeEmailField(index)`: offered on every input but the first. */
    method RemoveEmailField(index: nat)
      requires Valid() && 0 < index < |emails|
      modifies this`emails, this`errors
      ensures Valid()
      ensures emails == old(emails)[..index] + old(emails)[index + 1..]
      ensures EmailErrorsRecomputed(old(errors), emails, errors)
    {
      var newEmail := Without(emails, index);
      emails := newEmail;
      errors := RecomputeEmailErrors(errors, newEmail);
    }

    /** `validateForm`: replaces the error map. */
    method ValidateForm() returns (ok: bool)
      modifies this`errors
      ensures AddFormErrors(form, emails, errors)
      ensures ok <==> errors == map[]
    {
      var newErrors;
      newErrors, ok := ValidateLead(form, emails);
      errors := newErrors;
    }

    /**
     * `handleSubmit`: nothing is sent unless the form passes; a rejected
     * request merges the server's field errors and its message into the map.
     */
    method Submit(response: SaveResponse) returns (payload: Option<LeadPayload>, closeRequested: bool)
      modifies this`errors
      ensures payload == None ==> AddFormErrors(form, emails, errors) && errors != map[] && !closeRequested
      ensures payload != None ==> AddFormErrors(form, emails, map[])
      ensures payload != None ==> payload.value == AddPayload(form, userId, emails)
      ensures payload != None && response.Saved? ==> closeRequested && errors == map[]
      ensures payload != None && response.Rejected? ==>
                !closeRequested &&
                errors == MergeServerErrors(map[], Overlay(FieldErrorEntries(response.server.errors)),
                                            FallbackMessage(response.server, response.errMessage))
    {
      var ok := ValidateForm();
      if !ok {
        return None, false;
      }
      payload := Some(AddPayload(form, userId, emails));
      match response
      case Saved =>
        closeRequested := true;
      case Rejected(server, errMessage) =>
        var fieldErrors := CollectFieldErrors(FieldErrorEntries(server.errors));
        errors := MergeServerErrors(errors, fieldErrors, FallbackMessage(server, errMessage));
        closeRequested := false;
    }
  }
}
