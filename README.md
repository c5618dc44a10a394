# Lead CRM frontend: form rules, error maps and session writes

This project models, in Dafny, the client-side rules of a small lead-management
CRM front end written in TypeScript and React. It covers:

- the **Add Lead** and **Edit Lead** drawers: the submit-time validation of the
  lead form, the live checks of each input, the list of email inputs with one
  error key (`email_0`, `email_1`, …) per input, the payload sent to the lead
  endpoint, and how a failed request's error body becomes messages;
- the **Edit Profile** page: the personal-detail rules, the password-change
  rules that apply only while a password field is filled, the payload that
  carries the passwords only when a change is attempted, the clearing of the
  password fields after an update, the input handler that silences a field's
  error, and the prefill from the signed-in user;
- the **login** page: the email and password rules (on submit and live) and
  what an authentication reply writes to `localStorage`;
- the **dashboard shell**: the avatar initials and role taken from the stored
  and the fetched user, the lead-detail-page test that hides the sidebar, the
  Users link shown only to a super admin, the mobile menu flag, and logout.

Every React state update is an assignment. A `setErrors((prev) => …)` updater
is a module-level method from the previous map to the next one, so its
contract can be stated and checked on its own. The drawers and pages are
classes that hold the component's state and call those methods.

The regular expressions are written out as predicates in `patterns.dfy`:

- `/^[^\s@]+@[^\s@]+\.[^\s@]+$/` is `ValidEmail`, a left-to-right scan. It is
  proved equal to `MatchesEmailPattern`, the pattern read as written.
- The unanchored `/\S+@\S+\.\S+/` is `ContainsEmailLike`.
- The password look-aheads are `StrongPassword`.
- `/^https?:\/\//i` is `StartsWithHttp`.

`\s` is ECMAScript's exact whitespace and line-terminator set. `trim()` strips
that same set.

Files:

- `wrappers.dfy`: the `Option` type.
- `text.dfy`: characters, `trim`, digit stripping, decimal printing, `join`.
- `patterns.dfy`: the four regular expressions.
- `field_errors.dfy`: the error map, the `email_i` keys and the server error bodies.
- `lead_form.dfy`: the lead form and payload shared by both drawers.
- `add_lead_drawer.dfy`, `edit_lead_drawer.dfy`, `profile_page.dfy`,
  `session.dfy`, `login_page.dfy`, `dashboard_layout.dfy`: one module per
  page or drawer.

Where the two drawers differ, the model follows each one's code:

- Add checks the URLs only live, on the trimmed value. Edit checks them on
  submit, on the value as typed, so `" http://x.io"` passes in Add and fails in Edit.
- Add's submit puts one `emails` key for the whole list, and a blank extra
  input counts as malformed there. Edit checks `email_0` always, and a later
  input only when it is non-blank.
- Add sends the list as it is. Edit drops the blank later inputs.
- Edit's submit sets `whatsUpNumber` with an empty message when the number is
  empty. The form is refused, but no message shows.

## Model

| member | source | states |
|---|---|---|
| Text.Trim | components/add-lead-drawer.tsx:120 | `trim()` yields the empty string exactly when every character is whitespace |
| Text.KeepDigits | components/add-lead-drawer.tsx:36 | `replace(/\D/g, "")` yields only digits and is no longer than its input |
| Text.KeepDigitsKeepsEveryDigit | components/add-lead-drawer.tsx:36 | every digit of the input survives as often as it occurs, and nothing else does |
| Text.KeepDigitsKeepsOrder | components/add-lead-drawer.tsx:36 | the digits keep their order (the result is a subsequence of the input) |
| Text.KeepDigitsOfDigits | components/EditLeadDrawer.tsx:29 | a string of digits is left as it is |
| Text.KeepDigitsIdempotent | components/EditLeadDrawer.tsx:29 | stripping twice is stripping once |
| Text.KeepDigitsConcat | components/EditLeadDrawer.tsx:29 | stripping distributes over concatenation, so a pasted suffix is filtered on its own |
| Text.KeepDigitsBlankIffEmpty | components/add-lead-drawer.tsx:411 | the live `!val.trim()` test on the digits is the emptiness test |
| Text.NatToString | components/add-lead-drawer.tsx:150 | the index in `email_${i}` prints as one or more decimal digits, a single one exactly below ten |
| Text.NatToStringInjective | components/add-lead-drawer.tsx:150 | different indices print differently |
| Text.ToText | components/EditLeadDrawer.tsx:84 | a number prints as non-empty digits, a string stays as it is, a missing value is "" |
| Text.Join | components/EditLeadDrawer.tsx:186 | the join of no element is empty; otherwise it starts with the first element, and with two or more it is longer than the first plus the separator |
| Text.JoinEmptyIff | components/EditLeadDrawer.tsx:186-190 | with ", " the join is empty exactly for no element or one empty element |
| Patterns.ValidEmail | components/add-lead-drawer.tsx:23 | an accepted address has at least five characters and starts with neither `@` nor whitespace; `ValidEmailMeansPattern` gives the full match |
| Patterns.ContainsEmailLike | app/login/page.tsx:29 | an accepted text has at least five characters and holds an `@` and a `.` |
| Patterns.StrongPassword | app/login/page.tsx:23 | an accepted password holds a lower-case letter, an upper-case letter, a digit and a non-alphanumeric character |
| Patterns.StartsWithHttp | components/EditLeadDrawer.tsx:153 | an accepted URL has at least seven characters and starts with "http" in any ASCII case |
| Patterns.ValidEmailMeansPattern | components/add-lead-drawer.tsx:23 | the scan accepts exactly the strings the anchored email pattern matches |
| Patterns.ContainsEmailLikeLocal | app/login/page.tsx:29 | the unanchored test succeeds exactly when some `@` and later `.` sit in a run without whitespace |
| Patterns.ValidEmailIsEmailLike | app/dashboard/profile/page.tsx:48 | whatever the anchored pattern accepts, the unanchored one accepts |
| Patterns.ValidEmailShape | components/EditLeadDrawer.tsx:24 | an accepted address has no whitespace, is not blank, and has exactly one `@` |
| Patterns.BlankIsNotValidEmail | components/add-lead-drawer.tsx:147-149 | the "blank" and "invalid" branches never overlap |
| Patterns.EmailPatternsDiffer | app/login/page.tsx:29 | "to a@b.co" passes the login and profile test but not the drawers' test |
| Patterns.StrongPasswordMeaning | app/login/page.tsx:23 | the look-ahead pattern holds exactly for one lower, one upper, one digit, one non-alphanumeric, six or more characters on one line |
| Patterns.StartsWithHttpIgnoresCase | components/EditLeadDrawer.tsx:153 | the `i` flag: the URL test gives the same answer on the ASCII-lower-cased value |
| Patterns.StartsWithHttpPrefix | components/EditLeadDrawer.tsx:153 | only the scheme prefix matters: appending text keeps an accepted URL accepted |
| FieldErrors.EmailKey | components/add-lead-drawer.tsx:150 | `email_${i}` starts with `email_` |
| FieldErrors.EmailKeyInjective | components/add-lead-drawer.tsx:150 | two inputs never share an error key |
| FieldErrors.FieldKeysAreNotEmailKeys | components/add-lead-drawer.tsx:141-143 | `emails`, `form` and `workEmail` survive the `startsWith("email_")` filter |
| FieldErrors.DeleteKeys | components/add-lead-drawer.tsx:141-143 | the delete loop removes exactly the doomed keys and keeps every other entry unchanged |
| FieldErrors.FallbackMessage | components/add-lead-drawer.tsx:213 | the first non-empty of the server's message, its error, the thrown error's message, else "Something went wrong" |
| FieldErrors.OverlayMeaning | components/add-lead-drawer.tsx:215-218 | assigning entries in turn gives every key that occurs, with the message of its last occurrence |
| FieldErrors.CollectFieldErrors | components/add-lead-drawer.tsx:215-218 | the `forEach` builds exactly that overlay |
| FieldErrors.MergeServerErrors | components/add-lead-drawer.tsx:220 | the merged map has the previous keys, the field keys and `form`; field errors override, `form` holds the message |
| LeadForms.NullIfBlank | components/add-lead-drawer.tsx:202-204 | an optional field is sent as null exactly when blank, and as typed otherwise |
| LeadForms.Without | components/add-lead-drawer.tsx:166 | the filter removes exactly the input at the index |
| LeadForms.WithBlankSlot | components/add-lead-drawer.tsx:161-163 | one more input, empty, after the existing ones |
| AddLead.ValidateLead | components/add-lead-drawer.tsx:104-128 | the map holds, for each refused rule, its key and message, and nothing else; the form passes exactly when the map is empty |
| AddLead.EmailsVerdict | components/add-lead-drawer.tsx:120-124 | an empty or all-blank list is "required", otherwise any entry the pattern refuses makes it "invalid" |
| AddLead.AddFormErrorsDetermined | components/add-lead-drawer.tsx:104-127 | the rules leave no freedom: one form gives one error map |
| AddLead.AcceptedLeadIsComplete | components/add-lead-drawer.tsx:104-127 | a passing form has a first name, an industry, a WhatsApp number of ten or more characters, a blank or valid work email, and at least one email, each valid and non-blank |
| AddLead.RecomputeEmailErrors | components/add-lead-drawer.tsx:138-158 | the updater keeps every non-email key; `email_i` marks each non-blank malformed input; `emails` marks a non-empty all-blank list |
| AddLead.MarkInvalidEmails | components/add-lead-drawer.tsx:145-156 | the loop sets `email_i` exactly for each non-blank malformed input and reports whether any input was blank or malformed; non-email keys kept |
| AddLead.EmailErrorsDetermined | components/add-lead-drawer.tsx:169-189 | the updater's result is a function of the previous map and the list |
| AddLead.RequiredMessage | components/add-lead-drawer.tsx:391-398 | the live rule gives "" exactly when the value is not blank, the message otherwise |
| AddLead.WhatsAppMessage | components/add-lead-drawer.tsx:409-418 | "" exactly for ten or more digits; blank is "required", fewer digits "too short" |
| AddLead.OptionalFieldErrors | components/add-lead-drawer.tsx:317-327 | the key is set with the message exactly when the value is non-blank and refused, deleted otherwise; other keys untouched |
| AddLead.WorkEmailErrors | components/add-lead-drawer.tsx:312-328 | the work email key is present exactly for a non-blank value the pattern refuses |
| AddLead.UrlErrors | components/add-lead-drawer.tsx:345-357 | the URL key is present exactly for a non-blank value whose trimmed form lacks the scheme |
| AddLead.AddPayload | components/add-lead-drawer.tsx:199-205 | the payload carries the form and the email list as they are, and blank optional fields as null |
| AddLead.FieldErrorEntries | components/add-lead-drawer.tsx:214-218 | a string yields no field errors; an object or array yields one entry per element, in order |
| AddLead.ListErrorsByIndex | components/add-lead-drawer.tsx:214-218 | an array of messages gives exactly the keys "0" to n-1, the element at each index as its message, and never the "form" key |
| AddLead.IndexKeys | components/add-lead-drawer.tsx:215 | every index of an array is a key, and every key starts with a digit |
| AddLead.IndexEntriesDistinct | components/add-lead-drawer.tsx:215 | no two elements of an array share a key |
| AddLead.ObjectErrorsByKey | components/add-lead-drawer.tsx:214-218 | an object gives exactly its own keys; the last entry for a key decides its message, an array value giving its first element |
| AddLead.AddLeadDrawer.constructor | components/add-lead-drawer.tsx:67-81 | one empty email input, a blank form with status ACTIVE and priority HIGH, no errors |
| AddLead.AddLeadDrawer.Reset | components/add-lead-drawer.tsx:84-102 | opening resets the form, the list and the errors; a closed drawer keeps its state |
| AddLead.AddLeadDrawer.ChangeWhatsApp | components/add-lead-drawer.tsx:407-419 | the form keeps the digits only; the key holds the live message |
| AddLead.AddLeadDrawer.ChangeFirstName | components/add-lead-drawer.tsx:242-250 | the field changes; its key holds "FirstName is required" or "" |
| AddLead.AddLeadDrawer.ChangeIndustry | components/add-lead-drawer.tsx:389-399 | the field changes; its key holds "Industry is required" or "" |
| AddLead.AddLeadDrawer.ChangeWorkEmail | components/add-lead-drawer.tsx:312-328 | the field changes; its key follows the optional-field rule |
| AddLead.AddLeadDrawer.ChangeWebsiteURL | components/add-lead-drawer.tsx:345-357 | the field changes; its key follows the URL rule |
| AddLead.AddLeadDrawer.ChangeLinkdinURL | components/add-lead-drawer.tsx:368-380 | the field changes; its key follows the URL rule |
| AddLead.AddLeadDrawer.ChangeStatus | components/add-lead-drawer.tsx:427 | the select changes the status only |
| AddLead.AddLeadDrawer.ChangePriority | components/add-lead-drawer.tsx:443 | the select changes the priority only |
| AddLead.AddLeadDrawer.ChangeEmail | components/add-lead-drawer.tsx:133-159 | the input takes the value and the email keys are recomputed; the list never empties |
| AddLead.AddLeadDrawer.AddEmailField | components/add-lead-drawer.tsx:161-163 | one empty input is appended |
| AddLead.AddLeadDrawer.RemoveEmailField | components/add-lead-drawer.tsx:165-190 | any input but the first can go; the email keys are recomputed |
| AddLead.AddLeadDrawer.ValidateForm | components/add-lead-drawer.tsx:104-128 | the error map is replaced by the submit-time map |
| AddLead.AddLeadDrawer.Submit | components/add-lead-drawer.tsx:193-224 | nothing is sent unless the form passes; a sent payload is the form's; success closes with no errors; failure merges the server's field errors and message |
| EditLead.InitialEmails | components/EditLeadDrawer.tsx:76 | an array is used as is, a non-empty single value becomes a one-element list, anything else `[""]` |
| EditLead.PrefillForm | components/EditLeadDrawer.tsx:79-88 | each stored text field or ""; the stored status or "ACTIVE" and the stored priority or "HIGH", so neither is ever empty |
| EditLead.PhoneFieldError | components/EditLeadDrawer.tsx:28-33 | the field's own message shows exactly for one to nine digits |
| EditLead.FirstEmailError | components/EditLeadDrawer.tsx:145-146 | `email_0` is set exactly for a missing, blank or malformed first input, "required" before "invalid"; nothing else changes |
| EditLead.SetEmailErrors | components/EditLeadDrawer.tsx:145-150 | `email_0` marks a missing, blank or malformed first input; a later `email_i` marks a non-blank malformed one; other keys kept |
| EditLead.MarkLaterEmail | components/EditLeadDrawer.tsx:148-150 | one turn of the loop: input `i` gets "Email is invalid" under its own key exactly when it is non-blank and malformed, and no other key changes |
| EditLead.RecomputeEditEmailErrors | components/EditLeadDrawer.tsx:101-133 | only the `email_*` keys are dropped and recomputed; `form` and every other key survive |
| EditLead.EmailKeysSetDetermined | components/EditLeadDrawer.tsx:122-133 | the recomputed map is a function of the previous map and the list |
| EditLead.ValidateEditLead | components/EditLeadDrawer.tsx:137-157 | the map holds each refused rule's key and message, and nothing else; the form passes exactly when the map is empty |
| EditLead.EditFormErrorsDetermined | components/EditLeadDrawer.tsx:137-157 | one form and one list give one error map |
| EditLead.AcceptedEditIsComplete | components/EditLeadDrawer.tsx:137-157 | a passing form has a name, an industry, a WhatsApp number of ten or more characters (a prefilled number need not be digits), a valid first email, later emails blank or valid, optional fields blank or accepted as typed |
| EditLead.KeepNonBlank | components/EditLeadDrawer.tsx:165 | the filter keeps only non-blank entries |
| EditLead.KeepNonBlankKeepsOrder | components/EditLeadDrawer.tsx:165 | the result is a subsequence of the list, holding every non-blank entry and nothing else |
| EditLead.KeepNonBlankCounts | components/EditLeadDrawer.tsx:165 | every non-blank entry is kept as many times as it occurs, duplicates included; blank ones never are |
| EditLead.EditEmailPayload | components/EditLeadDrawer.tsx:165 | the first input as it is, even if blank, then exactly the filtered later inputs |
| EditLead.EditPayload | components/EditLeadDrawer.tsx:166-174 | the form, `updatedBy` and `userId` set to the current user, the filtered list, blank optional fields as null |
| EditLead.FieldTextsAgree | components/EditLeadDrawer.tsx:188 | the two drawers print a field value alike except an empty array, which the Add drawer (components/add-lead-drawer.tsx:216, `AddLead.FieldMessage`) prints as "undefined" and the Edit drawer as "" |
| EditLead.ErrorDetails | components/EditLeadDrawer.tsx:185-189 | a single message is shown as itself, whether it comes in an array or as an object's only field |
| EditLead.ErrorDetailsEmptyIff | components/EditLeadDrawer.tsx:185-190 | the details are empty, so the fallback message stays, exactly for no errors, an empty text, an empty array or one empty message, an empty object or one field whose text is empty |
| EditLead.EditFailureMessage | components/EditLeadDrawer.tsx:182-192 | never empty; non-empty details win, else the fallback message |
| EditLead.ListDetailsOverride | components/EditLeadDrawer.tsx:185-190 | with a message list, the fallback shows exactly when the list is empty, is one empty message, or joins to the fallback text itself |
| EditLead.EditLeadDrawer.constructor | components/EditLeadDrawer.tsx:60-71 | one empty email input, a blank form, no errors |
| EditLead.EditLeadDrawer.Load | components/EditLeadDrawer.tsx:74-92 | an open drawer with a lead shows its form and emails and no errors; otherwise nothing changes |
| EditLead.EditLeadDrawer.ChangeWhatsApp | components/EditLeadDrawer.tsx:26-34 | the form keeps the digits; the field shows its own message |
| EditLead.EditLeadDrawer.ChangeField | components/EditLeadDrawer.tsx:214 | a text input or select changes the form only |
| EditLead.EditLeadDrawer.ChangeEmail | components/EditLeadDrawer.tsx:96-114 | the input takes the value; the email keys are recomputed |
| EditLead.EditLeadDrawer.AddEmailField | components/EditLeadDrawer.tsx:117 | one empty input is appended |
| EditLead.EditLeadDrawer.RemoveEmailField | components/EditLeadDrawer.tsx:118-134 | any input but the first can go; the email keys are recomputed |
| EditLead.EditLeadDrawer.Submit | components/EditLeadDrawer.tsx:159-197 | without an id nothing happens; otherwise the form is validated, a passing one is sent, a failure adds `form` |
| Session.LocalStorage.GetItem | app/dashboard/layout.tsx:30 | the stored value of the key, or none |
| Session.LocalStorage.SetItem | app/login/page.tsx:64 | one key is set, the others kept |
| Session.LocalStorage.RemoveItem | app/login/page.tsx:70 | one key is removed, the others kept |
| Session.LocalStorage.constructor | app/login/page.tsx:63-71 | a store holding the given items |
| Login.EmailMessage | app/login/page.tsx:104-121 | "" exactly for a non-empty value with an address-like run; "required" when empty, "invalid" otherwise |
| Login.PasswordMessage | app/login/page.tsx:136-153 | "" exactly for a non-empty strong password; "required" when empty, "invaild" otherwise |
| Login.ValidateLogin | app/login/page.tsx:24-41 | a key for each refused field holding the live rule's message; passes exactly when no key is set |
| Login.AcceptedLoginMeaning | app/login/page.tsx:24-41 | a passing form has an address-like email and a password with all four classes, six or more characters, one line |
| Login.LoginPage.constructor | app/login/page.tsx:16-19 | empty inputs and no errors |
| Login.LoginPage.ChangeEmail | app/login/page.tsx:104-121 | the value changes and its key holds the live message |
| Login.LoginPage.ChangePassword | app/login/page.tsx:136-153 | the value changes and its key holds the live message |
| Login.LoginPage.Submit | app/login/page.tsx:43-79 | a refused, failed or non-ok request leaves storage alone; success stores a present token, stores the user or removes a stale one, and navigates |
| Profile.ValidateProfile | app/dashboard/profile/page.tsx:35-69 | names and email checked trimmed; password rules only during a change; passes exactly when the map is empty |
| Profile.ProfileErrorsDetermined | app/dashboard/profile/page.tsx:35-69 | one form gives one error map |
| Profile.NoPasswordErrorsWithoutChange | app/dashboard/profile/page.tsx:53-65 | with all three password fields empty no password key appears |
| Profile.AcceptedProfileMeaning | app/dashboard/profile/page.tsx:35-69 | a passing form has names, an address-like email and, during a change, a current password and a confirmed new one of six or more |
| Profile.BuildProfilePayload | app/dashboard/profile/page.tsx:79-88 | the four personal fields always, the current and new passwords only during a change, never the confirmation |
| Profile.ClearPasswords | app/dashboard/profile/page.tsx:91 | the three password fields are emptied, the rest kept |
| Profile.ClearedFormHasNoPasswordErrors | app/dashboard/profile/page.tsx:91 | after clearing, only personal keys can be refused |
| Profile.FieldKey | app/dashboard/profile/page.tsx:163-262 | each input's field name |
| Profile.FieldKeyInjective | app/dashboard/profile/page.tsx:100-106 | two inputs never write the same field |
| Profile.SetField | app/dashboard/profile/page.tsx:101 | the named field takes the value, every other field is kept |
| Profile.ClearFieldError | app/dashboard/profile/page.tsx:103-105 | a non-empty error of the field becomes "", no key is added or removed, other messages kept |
| Profile.ClearFieldErrorSilencesOnlyThatField | app/dashboard/profile/page.tsx:100-106 | after typing the field shows nothing and every other field's message stays |
| Profile.Prefill | app/dashboard/profile/page.tsx:113-123 | a returned user fills id, names, email and phone, missing ones as ""; passwords kept; no user leaves the form |
| Profile.ProfilePage.constructor | app/dashboard/profile/page.tsx:22-32 | an empty form and no errors |
| Profile.ProfilePage.Load | app/dashboard/profile/page.tsx:109-128 | the form becomes the prefill |
| Profile.ProfilePage.ChangeInput | app/dashboard/profile/page.tsx:100-106 | the field changes; its error is silenced |
| Profile.ProfilePage.Submit | app/dashboard/profile/page.tsx:71-98 | nothing is sent unless the form passes; the body carries the four profile fields' values, plus the current and new passwords exactly when a password field is filled, never the confirmation; success clears the passwords and navigates; failure changes nothing |
| Dashboard.Initial | app/dashboard/layout.tsx:36-37 | an initial is a lower-case letter only when the name is missing or empty and the default is one |
| Dashboard.RoleOf | app/dashboard/layout.tsx:35 | a non-empty role is the user's own stored role |
| Dashboard.Initials | app/dashboard/layout.tsx:33-38 | two characters, no lower-case letter; "AD" when there is no user |
| Dashboard.InitialsOfNames | app/dashboard/layout.tsx:47-49 | names give their upper-cased first letters; missing or empty names give "AD" |
| Dashboard.IsDetailPath | app/dashboard/layout.tsx:98 | a detail path is the leads prefix followed by one non-empty segment with no `/` |
| Dashboard.LeadDetailPageIff | app/dashboard/layout.tsx:98 | the leads path plus a segment is a detail page exactly when the segment is non-empty and has no `/` |
| Dashboard.OtherPagesAreNotDetailPages | app/dashboard/layout.tsx:98 | the list page, the bare prefix, a nested path and a missing path are not detail pages |
| Dashboard.SidebarLinks | app/dashboard/layout.tsx:160-190 | Leads always first; Users exactly for the role "SuperAdmin" |
| Dashboard.ShellChrome | app/dashboard/layout.tsx:88-197 | nothing but a spinner while loading; sidebar exactly off detail pages; overlay exactly off detail pages with the menu open |
| Dashboard.DashboardShell.constructor | app/dashboard/layout.tsx:21-24 | initials "AD", no role, menu closed, loading |
| Dashboard.DashboardShell.LoadIdentity | app/dashboard/layout.tsx:26-61 | a stored user shows first; an unparseable one stops the effect; the fetched user then decides; storage is written only when a user is returned; loading ends |
| Dashboard.DashboardShell.Logout | app/dashboard/layout.tsx:63-74 | both `token` and `user` are removed whatever the request did; the page goes to /login |
| Dashboard.DashboardShell.ToggleMobileMenu | app/dashboard/layout.tsx:80-82 | the flag is negated |
| Dashboard.DashboardShell.CloseMobileMenu | app/dashboard/layout.tsx:84-86 | the flag is false |

## Left out

- app/utils/api.tsx is not part of this model. The HTTP calls (`createOne`, `updateOne`, `updateProfile`, `getMe`, `logout`, the login `fetch`) are parameters that say how the request ended.
- components/RichTextEditor.tsx, app/layout.tsx and app/dashboard/leads/[id]/page.tsx are not part of this model.
- Rendering, CSS classes, toasts, `router.push`, `isSubmitting` and `isLoading` spinners on buttons, and the password visibility toggle are left out. Navigation is an outcome flag or a returned path.
- React batching and effect scheduling are left out. Each state update is one assignment in source order, and stale closures such as `setFormData({ ...formData, … })` read the current state.
- Dashboard.Initials: `toUpperCase` is modelled for ASCII letters only. Other letters are kept as they are, and one character never becomes two (as `ß` does).
- Session.Stored: `JSON.stringify`/`JSON.parse` of the user is abstracted. A stored user record parses back to itself. Any other non-empty stored text is treated as failing to parse. A text that parses to a non-user value is not modelled.
- Text.ToText: only non-negative integers are modelled among numbers. Negative, fractional and exponent forms are not.
- The `maxLength={10}` of the WhatsApp input is a browser limit on typing and is not modelled. The digit rules hold for any length.
- Server error bodies are limited to strings and arrays of strings. Nested objects, numbers and `null` entries inside `errors` are not modelled.
- EditLead.EditLeadDrawer.ChangeField covers the plain text inputs and selects as one whole-form replacement that keeps the WhatsApp number.
- Profile.ProfilePage.Submit: a failed update shows a toast only, and no state is modelled for it.
- Strings are sequences of Unicode scalar values, while JavaScript strings are sequences of UTF-16 code units, so a character outside the Basic Multilingual Plane is one character here and two code units there. The places where this changes an outcome include:
  - Patterns.StrongPassword: `.{6,}` counts code units, so "Aa1!😀" is 6 long in the source but 5 here.
  - Profile.ValidateProfile: `newPassword.length < 6` counts code units, so the new password "😀😀😀" is accepted in the source but is too short here.
  - EditLead.ValidateEditLead: `whatsUpNumber.length < 10` is applied to the number as prefilled from the stored lead, which is not filtered to digits until the user edits it, so a stored number holding such characters is measured differently. The Add drawer's number is always digits and is not affected.
  - Dashboard.Initials: `charAt(0)` of a name that starts with such a character is a lone surrogate in the source, but the whole character here.
  - Lone surrogates, which JavaScript strings can hold, cannot be represented here.
