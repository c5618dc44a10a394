/**
 * The Edit Lead drawer (components/EditLeadDrawer.tsx): the form prefilled
 * from a stored lead, the per-index email keys its updaters recompute, its
 * submit-time validation, the update payload and the message of a failed
 * update.
 */
module EditLead {
  import opened Wrappers
  import opened Text
  import opened Patterns
  import opened FieldErrors
  import opened LeadForms
  import AddLead

  const FirstNameRequired := "First Name is required"
  const IndustryRequired := "Industry is required"
  const WhatsAppTooShort := "WhatsApp number must be at least 10 digits"
  const WorkEmailInvalid := "Work Email is invalid"
  const WebsiteInvalid := "Website URL must start with http or https"
  const LinkedInInvalid := "LinkedIn URL must start with http or https"
  const EmailRequired := "Email is required"
  const EmailInvalid := "Email is invalid"

  /** The stored lead's `email`: an array, a single value, or missing (`null`, `""`). */
  datatype EmailField = EmailArray(list: seq<string>) | EmailScalar(value: string) | EmailAbsent

  /** The `leadData` the drawer is opened with; `None` is a missing or null property. */
  datatype LeadRecord = LeadRecord(
    id: Option<string>,
    firstName: Option<string>,
    email: EmailField,
    websiteURL: Option<string>,
    linkdinURL: Option<string>,
    industry: Option<string>,
    whatsUpNumber: Printable,
    workEmail: Option<string>,
    status: Option<string>,
    priority: Option<string>)

  /** `value || fallback` for a string property. */
  function OrDefault(o: Option<string>, fallback: string): (r: string)
    ensures r == "" <==> !Truthy(o) && fallback == ""
  {
    if Truthy(o) then o.value else fallback
  }

  /** The list of email inputs a stored lead opens with. */
  function InitialEmails(e: EmailField): (r: seq<string>)
    ensures e.EmailArray? ==> r == e.list
    ensures e.EmailScalar? && e.value != "" ==> r == [e.value]
    ensures !e.EmailArray? && (e.EmailAbsent? || e.value == "") ==> r == [""]
    ensures !e.EmailArray? ==> |r| == 1
  {
    match e
    case EmailArray(list) => list
    case EmailScalar(v) => if v != "" then [v] else [""]
    case EmailAbsent => [""]
  }

  /**
   * The form a stored lead opens with: missing text is "", missing status and
   * priority take their defaults; `whatsUpNumber?.toString() || ""` is `ToText`,
   * since a printed number is never empty.
   */
  function PrefillForm(lead: LeadRecord): (f: LeadForm)
    ensures f.status != "" && f.priority != ""
    ensures f.status == OrDefault(lead.status, "ACTIVE") && f.priority == OrDefault(lead.priority, "HIGH")
    ensures !Truthy(lead.status) ==> f.status == "ACTIVE"
    ensures !Truthy(lead.priority) ==> f.priority == "HIGH"
    ensures f.firstName == OrDefault(lead.firstName, "") && f.industry == OrDefault(lead.industry, "")
    ensures f.workEmail == OrDefault(lead.workEmail, "") && f.whatsUpNumber == ToText(lead.whatsUpNumber)
    ensures f.websiteURL == OrDefault(lead.websiteURL, "") && f.linkdinURL == OrDefault(lead.linkdinURL, "")
  {
    LeadForm(OrDefault(lead.firstName, ""), OrDefault(lead.websiteURL, ""), OrDefault(lead.linkdinURL, ""),
             OrDefault(lead.industry, ""), ToText(lead.whatsUpNumber), OrDefault(lead.workEmail, ""),
             OrDefault(lead.status, "ACTIVE"), OrDefault(lead.priority, "HIGH"))
  }

  /** The message `PhoneNumberField` shows under the input, from the digits it passes on. */
  function PhoneFieldError(digits: string): (msg: string)
    ensures msg != "" <==> 0 < |digits| < 10
    ensures msg != "" ==> msg == WhatsAppTooShort
  {
    if |digits| > 0 && |digits| < 10 then WhatsAppTooShort else ""
  }

  /** The message of the first email input: blank (or no input at all) before malformed. */
  function FirstEmailMessage(list: seq<string>): string {
    if list == [] || IsBlank(list[0]) then EmailRequired else EmailInvalid
  }

  /** The first input is missing, blank, or refused by the pattern. */
  predicate FirstEmailRefused(list: seq<string>) {
    list == [] || IsBlank(list[0]) || !ValidEmail(list[0])
  }

  /**
   * The `email_*` keys of `errs` for the list: `email_0` marks a missing,
   * blank or malformed first input, `email_i` for a later input marks a
   * non-blank malformed one, and there are no other email keys.
   */
  ghost predicate EmailRules(list: seq<string>, errs: Errors) {
    && KeyRule(errs, EmailKey(0), FirstEmailRefused(list), FirstEmailMessage(list))
    && (forall i :: 1 <= i < |list| ==> KeyRule(errs, EmailKey(i), !IsBlank(list[i]) && !ValidEmail(list[i]), EmailInvalid))
    && (forall k :: k in errs && IsEmailKey(k) ==> k == EmailKey(0) || exists i :: 1 <= i < |list| && k == EmailKey(i))
  }

  /** `next` keeps every key of `base` that is not an email key, and sets the email keys as `EmailRules` says. */
  ghost predicate EmailKeysSet(base: Errors, list: seq<string>, next: Errors) {
    && (forall k :: !IsEmailKey(k) ==> (k in next <==> k in base))
    && (forall k :: !IsEmailKey(k) && k in base ==> next[k] == base[k])
    && EmailRules(list, next)
  }

  /**
   * The email part that `validateForm`, `handleEmailChange` and
   * `removeEmailField` share: the first input, then `slice(1).forEach`
   * over the rest, each later input writing the key of its own index.
   */
  method SetEmailErrors(base: Errors, list: seq<string>) returns (next: Errors)
    requires forall k :: k in base ==> !IsEmailKey(k)
    ensures EmailKeysSet(base, list, next)
  {
    next := FirstEmailError(base, list);
    var i := 1;
    while i < |list|
      invariant 1 <= i <= |list| || (list == [] && i == 1)
      invariant EmailsMarkedBefore(base, list, next, i)
    {
      next := MarkLaterEmail(base, list, next, i);
      i := i + 1;
    }
  }

  /** The loop's state after the inputs before `i`: `base` kept, `email_0` set, later keys set below `i` only. */
  ghost predicate EmailsMarkedBefore(base: Errors, list: seq<string>, next: Errors, i: int) {
    && (forall k :: !IsEmailKey(k) ==> (k in next <==> k in base))
    && (forall k :: !IsEmailKey(k) && k in base ==> next[k] == base[k])
    && KeyRule(next, EmailKey(0), FirstEmailRefused(list), FirstEmailMessage(list))
    && (forall j :: 1 <= j < |list| ==> KeyRule(next, EmailKey(j), j < i && !IsBlank(list[j]) && !ValidEmail(list[j]), EmailInvalid))
    && (forall k :: k in next && IsEmailKey(k) ==> k == EmailKey(0) || exists j :: 1 <= j < i && k == EmailKey(j))
  }

  /** One turn of the `forEach`: a non-blank input the pattern refuses gets "Email is invalid" under its own key. */
  method MarkLaterEmail(base: Errors, list: seq<string>, next: Errors, i: int) returns (r: Errors)
    requires 1 <= i < |list| && EmailsMarkedBefore(base, list, next, i)
    ensures EmailsMarkedBefore(base, list, r, i + 1)
  {
    if Trim(list[i]) != [] && !ValidEmail(list[i]) {
      r := next[EmailKey(i) := EmailInvalid];
      RefusedEmailMarked(base, list, next, i);
    } else {
      r := next;
      AcceptedEmailUnmarked(base, list, next, i);
    }
  }

  /** No key is set yet for index `i` or beyond. */
  lemma LaterKeysUnset(base: Errors, list: seq<string>, next: Errors, i: int)
    requires 1 <= i < |list| && EmailsMarkedBefore(base, list, next, i)
    ensures EmailKey(i) !in next
  {
    if EmailKey(i) in next {
      if EmailKey(i) == EmailKey(0) {
        EmailKeyInjective(i, 0);
      } else {
        var j :| 1 <= j < i && EmailKey(i) == EmailKey(j);
        EmailKeyInjective(i, j);
      }
    }
  }

  lemma AcceptedEmailUnmarked(base: Errors, list: seq<string>, next: Errors, i: int)
    requires 1 <= i < |list| && EmailsMarkedBefore(base, list, next, i)
    requires IsBlank(list[i]) || ValidEmail(list[i])
    ensures EmailsMarkedBefore(base, list, next, i + 1)
  {
    LaterKeysUnset(base, list, next, i);
    forall k | k in next && IsEmailKey(k)
      ensures k == EmailKey(0) || exists j :: 1 <= j < i + 1 && k == EmailKey(j)
    {
    }
  }

  lemma RefusedEmailMarked(base: Errors, list: seq<string>, next: Errors, i: int)
    requires 1 <= i < |list| && EmailsMarkedBefore(base, list, next, i)
    requires !IsBlank(list[i]) && !ValidEmail(list[i])
    ensures EmailsMarkedBefore(base, list, next[EmailKey(i) := EmailInvalid], i + 1)
  {
    var r := next[EmailKey(i) := EmailInvalid];
    EmailKeyInjective(i, 0);
    LaterKeyMarked(list, next, i);
    forall k | !IsEmailKey(k)
      ensures (k in r <==> k in base) && (k in base ==> r[k] == base[k])
    {
      assert k != EmailKey(i);
    }
    forall k | k in r && IsEmailKey(k)
      ensures k == EmailKey(0) || exists j :: 1 <= j < i + 1 && k == EmailKey(j)
    {
      if k == EmailKey(i) {
        assert 1 <= i < i + 1;
      }
    }
  }

  /** Setting the key of a refused input `i` extends the later inputs' rule from those before `i` to those up to `i`. */
  lemma LaterKeyMarked(list: seq<string>, next: Errors, i: int)
    requires 1 <= i < |list| && !IsBlank(list[i]) && !ValidEmail(list[i])
    requires forall j :: 1 <= j < |list| ==>
               KeyRule(next, EmailKey(j), j < i && !IsBlank(list[j]) && !ValidEmail(list[j]), EmailInvalid)
    ensures forall j :: 1 <= j < |list| ==>
              KeyRule(next[EmailKey(i) := EmailInvalid], EmailKey(j), j < i + 1 && !IsBlank(list[j]) && !ValidEmail(list[j]),
                      EmailInvalid)
  {
    forall j | 1 <= j < |list| && j != i
      ensures EmailKey(j) != EmailKey(i)
    {
      EmailKeyInjective(i, j);
    }
  }

  /** The rule of the first input: `email_0` is "required" or "invalid", or absent. */
  method FirstEmailError(base: Errors, list: seq<string>) returns (next: Errors)
    requires forall k :: k in base ==> !IsEmailKey(k)
    ensures forall k :: k != EmailKey(0) ==> (k in next <==> k in base)
    ensures forall k :: k in base ==> next[k] == base[k]
    ensures KeyRule(next, EmailKey(0), FirstEmailRefused(list), FirstEmailMessage(list))
  {
    next := base;
    if list == [] || Trim(list[0]) == [] {
      next := next[EmailKey(0) := EmailRequired];
    } else if !ValidEmail(list[0]) {
      next := next[EmailKey(0) := EmailInvalid];
    }
  }

  /** The updater of `handleEmailChange` and `removeEmailField`: drop every `email_*` key, then set them anew. */
  method RecomputeEditEmailErrors(prev: Errors, list: seq<string>) returns (next: Errors)
    ensures EmailKeysSet(prev, list, next)
  {
    var base := DeleteKeys(prev, set k | k in prev && IsEmailKey(k));
    next := SetEmailErrors(base, list);
  }

  /** The updater keeps `emails`, `form` and every other non-email key, and is a function of its inputs. */
  lemma EmailKeysSetDetermined(base: Errors, list: seq<string>, a: Errors, b: Errors)
    requires EmailKeysSet(base, list, a) && EmailKeysSet(base, list, b)
    ensures a == b
  {
    forall k | k in a
      ensures k in b && a[k] == b[k]
    {
      EmailKeysSetAgreeAt(base, list, a, b, k);
    }
    forall k | k in b
      ensures k in a
    {
      EmailKeysSetAgreeAt(base, list, b, a, k);
    }
  }

  /** Two recomputed maps agree on each key of the first. */
  lemma EmailKeysSetAgreeAt(base: Errors, list: seq<string>, a: Errors, b: Errors, k: string)
    requires EmailKeysSet(base, list, a) && EmailKeysSet(base, list, b) && k in a
    ensures k in b && a[k] == b[k]
  {
    if IsEmailKey(k) && k != EmailKey(0) {
      var i :| 1 <= i < |list| && k == EmailKey(i);
    }
  }

  /** The message of a short WhatsApp number on submit; an empty one gets a key with an empty message. */
  function WhatsAppSubmitMessage(w: string): string {
    if w == "" then "" else WhatsAppTooShort
  }

  /** `value?.trim() && !test(value)`: an optional field is refused when non-blank and rejected as typed. */
  predicate OptionalRefused(value: string, accepted: bool) {
    !IsBlank(value) && !accepted
  }

  /** The keys of the form's fields. */
  const EditFieldKeys: set<string> := {"firstName", "industry", "whatsUpNumber", "workEmail", "websiteURL", "linkdinURL"}

  /** The map the Edit drawer's `validateForm` builds. */
  ghost predicate EditFormErrors(form: LeadForm, list: seq<string>, errs: Errors) {
    && (forall k :: k in errs && !IsEmailKey(k) ==> k in EditFieldKeys)
    && RequiredRules(form, errs)
    && OptionalRules(form, errs)
    && EmailRules(list, errs)
  }

  lemma EditFieldKeysAreNotEmailKeys()
    ensures forall k :: k in EditFieldKeys ==> !IsEmailKey(k)
    ensures "firstName" != "industry" && "firstName" != "whatsUpNumber" && "firstName" != "workEmail"
    ensures "firstName" != "websiteURL" && "firstName" != "linkdinURL" && "industry" != "whatsUpNumber"
    ensures "industry" != "workEmail" && "industry" != "websiteURL" && "industry" != "linkdinURL"
    ensures "whatsUpNumber" != "workEmail" && "whatsUpNumber" != "websiteURL" && "whatsUpNumber" != "linkdinURL"
    ensures "workEmail" != "websiteURL" && "workEmail" != "linkdinURL" && "websiteURL" != "linkdinURL"
  {
    assert "firstName"[0] != "industry"[0];
    assert "whatsUpNumber"[0] != "workEmail"[1];
    assert "websiteURL"[1] != "workEmail"[1];
    assert "linkdinURL"[0] != "industry"[0];
    forall k | k in EditFieldKeys
      ensures !IsEmailKey(k)
    {
      assert k[0] != 'e';
    }
  }

  /** The required fields' part of `EditFormErrors`. */
  predicate RequiredRules(form: LeadForm, errs: Errors) {
    && KeyRule(errs, "firstName", form.firstName == "", FirstNameRequired)
    && KeyRule(errs, "industry", form.industry == "", IndustryRequired)
    && KeyRule(errs, "whatsUpNumber", |form.whatsUpNumber| < 10, WhatsAppSubmitMessage(form.whatsUpNumber))
  }

  /** The optional fields' part of `EditFormErrors`. */
  predicate OptionalRules(form: LeadForm, errs: Errors) {
    && KeyRule(errs, "workEmail", OptionalRefused(form.workEmail, ValidEmail(form.workEmail)), WorkEmailInvalid)
    && KeyRule(errs, "websiteURL", OptionalRefused(form.websiteURL, StartsWithHttp(form.websiteURL)), WebsiteInvalid)
    && KeyRule(errs, "linkdinURL", OptionalRefused(form.linkdinURL, StartsWithHttp(form.linkdinURL)), LinkedInInvalid)
  }

  /** The field part of `EditFormErrors`: the six field keys and nothing else. */
  predicate FieldRules(form: LeadForm, errs: Errors) {
    errs.Keys <= EditFieldKeys && RequiredRules(form, errs) && OptionalRules(form, errs)
  }

  /** The required-field `if` statements of `validateForm`, into a fresh map. */
  method RequiredFieldErrors(form: LeadForm) returns (errs: Errors)
    ensures errs.Keys <= {"firstName", "industry", "whatsUpNumber"}
    ensures RequiredRules(form, errs)
  {
    EditFieldKeysAreNotEmailKeys();
    var whatsMsg := if form.whatsUpNumber == "" then "" else WhatsAppTooShort;
    errs := map[];
    errs := SetIf(errs, "firstName", form.firstName == "", FirstNameRequired);
    errs := SetIf(errs, "industry", form.industry == "", IndustryRequired);
    errs := SetIf(errs, "whatsUpNumber", |form.whatsUpNumber| < 10, whatsMsg);
  }

  /** The optional-field `if` statements of `validateForm`, into a fresh map. */
  method OptionalFieldErrors(form: LeadForm) returns (errs: Errors)
    ensures errs.Keys <= {"workEmail", "websiteURL", "linkdinURL"}
    ensures OptionalRules(form, errs)
  {
    EditFieldKeysAreNotEmailKeys();
    errs := map[];
    errs := SetIf(errs, "workEmail", Trim(form.workEmail) != [] && !ValidEmail(form.workEmail), WorkEmailInvalid);
    errs := SetIf(errs, "websiteURL", Trim(form.websiteURL) != [] && !StartsWithHttp(form.websiteURL), WebsiteInvalid);
    errs := SetIf(errs, "linkdinURL", Trim(form.linkdinURL) != [] && !StartsWithHttp(form.linkdinURL), LinkedInInvalid);
  }

  /** The field rules of `validateForm`, one `if` per field, into a fresh map. */
  method FieldErrorsOf(form: LeadForm) returns (fields: Errors)
    ensures FieldRules(form, fields)
  {
    EditFieldKeysAreNotEmailKeys();
    var required := RequiredFieldErrors(form);
    var optional := OptionalFieldErrors(form);
    fields := required + optional;
  }

  /** `validateForm`: the field rules, then the email rules, into a fresh map; the form passes when it stays empty. */
  method ValidateEditLead(form: LeadForm, list: seq<string>) returns (newErrors: Errors, ok: bool)
    ensures EditFormErrors(form, list, newErrors)
    ensures ok <==> newErrors == map[]
  {
    EditFieldKeysAreNotEmailKeys();
    var fields := FieldErrorsOf(form);
    newErrors := SetEmailErrors(fields, list);
    FieldRulesAreFormErrors(form, list, fields, newErrors);
    ok := |newErrors| == 0;
    assert ok ==> newErrors.Keys == {};
  }

  lemma FieldRulesAreFormErrors(form: LeadForm, list: seq<string>, fields: Errors, errs: Errors)
    requires FieldRules(form, fields)
    requires EmailKeysSet(fields, list, errs)
    ensures EditFormErrors(form, list, errs)
  {
    EditFieldKeysAreNotEmailKeys();
  }

  /** Two maps that follow the field rules agree on each field key of the first. */
  lemma FieldRulesAgreeAt(form: LeadForm, a: Errors, b: Errors, k: string)
    requires RequiredRules(form, a) && OptionalRules(form, a) && RequiredRules(form, b) && OptionalRules(form, b)
    requires k in a && k in EditFieldKeys
    ensures k in b && a[k] == b[k]
  {
    if k == "firstName" {
    } else if k == "industry" {
    } else if k == "whatsUpNumber" {
    } else if k == "workEmail" {
    } else if k == "websiteURL" {
    } else {
      assert k == "linkdinURL";
    }
  }

  /** Two maps that both follow the rules agree on each key of the first. */
  lemma EditFormErrorsAgreeAt(form: LeadForm, list: seq<string>, a: Errors, b: Errors, k: string)
    requires EditFormErrors(form, list, a) && EditFormErrors(form, list, b) && k in a
    ensures k in b && a[k] == b[k]
  {
    if !IsEmailKey(k) {
      FieldRulesAgreeAt(form, a, b, k);
    } else if k != EmailKey(0) {
      var i :| 1 <= i < |list| && k == EmailKey(i);
    }
  }

  /** One form and one list give one error map. */
  lemma EditFormErrorsDetermined(form: LeadForm, list: seq<string>, a: Errors, b: Errors)
    requires EditFormErrors(form, list, a) && EditFormErrors(form, list, b)
    ensures a == b
  {
    forall k | k in a
      ensures k in b && a[k] == b[k]
    {
      EditFormErrorsAgreeAt(form, list, a, b, k);
    }
    forall k | k in b
      ensures k in a
    {
      EditFormErrorsAgreeAt(form, list, b, a, k);
    }
  }

  /**
   * A form that passes has a first name, an industry, a WhatsApp number of ten or more characters,
   * a well-formed first email, later emails that are blank or well-formed,
   * and optional fields that are blank or accepted as typed.
   */
  lemma {:induction false} AcceptedEditIsComplete(form: LeadForm, list: seq<string>)
    requires EditFormErrors(form, list, map[])
    ensures form.firstName != "" && form.industry != "" && |form.whatsUpNumber| >= 10
    ensures |list| >= 1 && ValidEmail(list[0]) && !IsBlank(list[0])
    ensures forall i :: 1 <= i < |list| ==> IsBlank(list[i]) || ValidEmail(list[i])
    ensures IsBlank(form.workEmail) || ValidEmail(form.workEmail)
    ensures IsBlank(form.websiteURL) || StartsWithHttp(form.websiteURL)
    ensures IsBlank(form.linkdinURL) || StartsWithHttp(form.linkdinURL)
  {
    var none: Errors := map[];
    assert EmailKey(0) !in none;
    forall i | 1 <= i < |list|
      ensures IsBlank(list[i]) || ValidEmail(list[i])
    {
      assert EmailKey(i) !in none;
    }
  }

  /** `e.trim()` as a filter. */
  function KeepNonBlank(list: seq<string>): (r: seq<string>)
    ensures |r| <= |list|
    ensures forall k :: 0 <= k < |r| ==> !IsBlank(r[k])
  {
    if list == [] then []
    else if Trim(list[0]) != [] then [list[0]] + KeepNonBlank(list[1..])
    else KeepNonBlank(list[1..])
  }

  /** The filter drops exactly the blank entries and keeps the order of the rest. */
  lemma {:induction false} KeepNonBlankKeepsOrder(list: seq<string>)
    ensures IsSubsequence(KeepNonBlank(list), list)
    ensures forall x :: x in list && !IsBlank(x) ==> x in KeepNonBlank(list)
    ensures forall x :: x in KeepNonBlank(list) ==> x in list
  {
    if list != [] {
      KeepNonBlankKeepsOrder(list[1..]);
      var rest := KeepNonBlank(list[1..]);
      if !IsBlank(list[0]) {
        assert KeepNonBlank(list) == [list[0]] + rest;
        assert ([list[0]] + rest)[1..] == rest;
      }
      forall x | x in list && !IsBlank(x)
        ensures x in KeepNonBlank(list)
      {
        if x != list[0] {
          assert x in list[1..];
        }
      }
    }
  }

  /** Each non-blank entry is kept as often as it occurs; a blank one never is. */
  lemma {:induction false} KeepNonBlankCounts(list: seq<string>)
    ensures forall x :: multiset(KeepNonBlank(list))[x] == if IsBlank(x) then 0 else multiset(list)[x]
  {
    if list != [] {
      KeepNonBlankCounts(list[1..]);
      assert list == [list[0]] + list[1..];
      assert multiset(list) == multiset([list[0]]) + multiset(list[1..]);
      if !IsBlank(list[0]) {
        assert multiset(KeepNonBlank(list)) == multiset([list[0]]) + multiset(KeepNonBlank(list[1..]));
      }
    }
  }

  /** `[email[0], ...email.slice(1).filter((e) => e.trim())]`, reached only once the first input passed. */
  function EditEmailPayload(list: seq<string>): (r: seq<string>)
    requires |list| >= 1
    ensures |r| >= 1 && r[0] == list[0]
    ensures r[1..] == KeepNonBlank(list[1..])
    ensures forall k :: 1 <= k < |r| ==> !IsBlank(r[k])
  {
    [list[0]] + KeepNonBlank(list[1..])
  }

  /** The update payload: the form, `updatedBy` and `userId` set to the current user, blank optional fields as null. */
  function EditPayload(form: LeadForm, currentUserId: string, list: seq<string>): (p: LeadPayload)
    requires |list| >= 1
    ensures CarriesForm(p, form) && OptionalFieldsNormalised(p)
    ensures p.email == EditEmailPayload(list)
    ensures p.userId == currentUserId && p.updatedBy == Some(currentUserId)
  {
    LeadPayload(form.firstName, form.industry, form.whatsUpNumber, form.status, form.priority,
                NullIfBlank(form.workEmail), NullIfBlank(form.websiteURL), NullIfBlank(form.linkdinURL),
                EditEmailPayload(list), currentUserId, Some(currentUserId))
  }

  /** `Array.isArray(v) ? v[0] : v`, as `join` prints it: an empty array's undefined first element prints as "". */
  function EditFieldText(v: FieldValue): (t: string)
    ensures v.Messages? ==> t == "" || t in v.texts
  {
    match v
    case Message(t) => t
    case Messages(ts) => if ts == [] then "" else ts[0]
  }

  /** The details the catch block joins from `server.errors` with ", ". */
  function ErrorDetails(errors: ServerErrors): (d: string)
    ensures errors.ErrorList? && |errors.items| == 1 ==> d == errors.items[0]
    ensures errors.ErrorObject? && |errors.entries| == 1 ==> d == EditFieldText(errors.entries[0].1)
  {
    match errors
    case NoErrors => ""
    case ErrorText(t) => t
    case ErrorList(items) => Join(items, ", ")
    case ErrorObject(entries) => Join(seq(|entries|, i requires 0 <= i < |entries| => EditFieldText(entries[i].1)), ", ")
  }

  /**
   * The details come out empty, so the fallback message stays, exactly when
   * there is nothing to print: no errors, an empty text, no message or a
   * single empty one.
   */
  lemma ErrorDetailsEmptyIff(errors: ServerErrors)
    ensures ErrorDetails(errors) == "" <==>
              || errors.NoErrors?
              || (errors.ErrorText? && errors.text == "")
              || (errors.ErrorList? && (errors.items == [] || errors.items == [""]))
              || (errors.ErrorObject? &&
                  (errors.entries == [] || (|errors.entries| == 1 && EditFieldText(errors.entries[0].1) == "")))
  {
    match errors
    case ErrorList(items) =>
      JoinEmptyIff(items, ", ");
    case ErrorObject(entries) =>
      var texts := seq(|entries|, i requires 0 <= i < |entries| => EditFieldText(entries[i].1));
      JoinEmptyIff(texts, ", ");
      if |entries| == 1 {
        assert texts == [EditFieldText(entries[0].1)];
      }
    case _ =>
  }

  /**
   * The two drawers print a field's message alike, except for an empty array:
   * adding prints its undefined first element as "undefined", editing as "".
   */
  lemma FieldTextsAgree(v: FieldValue)
    ensures AddLead.FieldMessage(v) == EditFieldText(v) <==> !(v.Messages? && v.texts == [])
    ensures v.Messages? && v.texts == [] ==> AddLead.FieldMessage(v) == "undefined" && EditFieldText(v) == ""
  {
  }

  /** The message a failed update shows: non-empty details win over the server's or the error's own message. */
  function EditFailureMessage(server: ServerBody, errMessage: Option<string>): (msg: string)
    ensures msg != ""
    ensures ErrorDetails(server.errors) != "" ==> msg == ErrorDetails(server.errors)
    ensures ErrorDetails(server.errors) == "" ==> msg == FallbackMessage(server, errMessage)
  {
    var details := ErrorDetails(server.errors);
    if details != "" then details else FallbackMessage(server, errMessage)
  }

  /** A list of messages replaces the fallback unless it is empty or a single empty message. */
  lemma ListDetailsOverride(server: ServerBody, errMessage: Option<string>)
    requires server.errors.ErrorList?
    ensures (EditFailureMessage(server, errMessage) == FallbackMessage(server, errMessage)) <==>
              (server.errors.items == [] || server.errors.items == [""] ||
               Join(server.errors.items, ", ") == FallbackMessage(server, errMessage))
  {
    JoinEmptyIff(server.errors.items, ", ");
  }

  /** How the update request ended. */
  datatype UpdateResponse = Updated | Failed(server: ServerBody, errMessage: Option<string>)

  /** The drawer's state; `phoneError` is the WhatsApp field's own message, kept apart from the error map. */
  class EditLeadDrawer {
    var form: LeadForm
    var emails: seq<string>
    var errors: Errors
    var phoneError: string

    constructor ()
      ensures form == BlankLeadForm && emails == [""] && errors == map[] && phoneError == ""
    {
      form := BlankLeadForm;
      emails := [""];
      errors := map[];
      phoneError := "";
    }

    /** The effect on `open` and `leadData`: an opened drawer shows the stored lead and no errors. */
    method Load(open: bool, lead: Option<LeadRecord>)
      modifies this`form, this`emails, this`errors
      ensures open && lead.Some? ==>
                form == PrefillForm(lead.value) && emails == InitialEmails(lead.value.email) && errors == map[]
      ensures !(open && lead.Some?) ==> form == old(form) && emails == old(emails) && errors == old(errors)
    {
      if open && lead.Some? {
        emails := InitialEmails(lead.value.email);
        form := PrefillForm(lead.value);
        errors := map[];
      }
    }

    /** `PhoneNumberField.handleChange`: the form keeps the digits, the field shows its own message. */
    method ChangeWhatsApp(raw: string)
      modifies this`form, this`phoneError
      ensures form == old(form).(whatsUpNumber := KeepDigits(raw))
      ensures phoneError == PhoneFieldError(KeepDigits(raw))
    {
      var digits := KeepDigits(raw);
      form := form.(whatsUpNumber := digits);
      phoneError := PhoneFieldError(digits);
    }

    /** The text inputs and the selects change their field only; no live check runs. */
    method ChangeField(next: LeadForm)
      requires next.whatsUpNumber == form.whatsUpNumber
      modifies this`form
      ensures form == next
    {
      form := next;
    }

    /** `handleEmailChange(index, value)`. */
    method ChangeEmail(index: nat, value: string)
      requires index < |emails|
      modifies this`emails, this`errors
      ensures emails == old(emails)[index := value]
      ensures EmailKeysSet(old(errors), emails, errors)
    {
      var newEmail := emails[index := value];
      emails := newEmail;
      errors := RecomputeEditEmailErrors(errors, newEmail);
    }

    /** `addEmailField`. */
    method AddEmailField()
      modifies this`emails
      ensures emails == WithBlankSlot(old(emails))
    {
      emails := emails + [""];
    }

    /** `removeEmailField(index)`: offered on every input but the first. */
    method RemoveEmailField(index: nat)
      requires 0 < index < |emails|
      modifies this`emails, this`errors
      ensures emails == old(emails)[..index] + old(emails)[index + 1..]
      ensures EmailKeysSet(old(errors), emails, errors)
    {
      var newEmail := Without(emails, index);
      emails := newEmail;
      errors := RecomputeEditEmailErrors(errors, newEmail);
    }

    /**
     * `handleSubmit`: a lead without an id sends nothing and leaves the map
     * alone; otherwise the form is validated, and a failed update adds the
     * `form` message to the map.
     */
    method Submit(leadId: Option<string>, currentUserId: string, response: UpdateResponse)
      returns (payload: Option<LeadPayload>, closeRequested: bool)
      modifies this`errors
      ensures !Truthy(leadId) ==> payload == None && !closeRequested && errors == old(errors)
      ensures Truthy(leadId) && payload == None ==> EditFormErrors(form, emails, errors) && errors != map[] && !closeRequested
      ensures payload != None ==> Truthy(leadId) && EditFormErrors(form, emails, map[]) && |emails| >= 1
      ensures payload != None ==> payload.value == EditPayload(form, currentUserId, emails)
      ensures payload != None && response.Updated? ==> closeRequested && errors == map[]
      ensures payload != None && response.Failed? ==>
                !closeRequested && errors == map["form" := EditFailureMessage(response.server, response.errMessage)]
    {
      if !Truthy(leadId) {
        return None, false;
      }
      var newErrors, ok := ValidateEditLead(form, emails);
      errors := newErrors;
      if !ok {
        return None, false;
      }
      AcceptedEditIsComplete(form, emails);
      payload := Some(EditPayload(form, currentUserId, emails));
      match response
      case Updated =>
        closeRequested := true;
      case Failed(server, errMessage) =>
        errors := errors["form" := EditFailureMessage(server, errMessage)];
        closeRequested := false;
    }
  }
}
