/**
 * What the Add and Edit lead drawers share: the form's fields, the payload
 * sent to the lead endpoint, the rule that blank optional fields are sent as
 * null, and the removal of one email input from the list.
 */
module LeadForms {
  import opened Wrappers
  import opened Text

  /** The drawer's `formData`. Status and priority hold the select's value. */
  datatype LeadForm = LeadForm(
    firstName: string,
    websiteURL: string,
    linkdinURL: string,
    industry: string,
    whatsUpNumber: string,
    workEmail: string,
    status: string,
    priority: string)

  /** The empty form a drawer starts from: status ACTIVE, priority HIGH. */
  const BlankLeadForm := LeadForm("", "", "", "", "", "", "ACTIVE", "HIGH")

  /** The body of the create or update request; `None` is a JSON null, or a property that is absent. */
  datatype LeadPayload = LeadPayload(
    firstName: string,
    industry: string,
    whatsUpNumber: string,
    status: string,
    priority: string,
    workEmail: Option<string>,
    websiteURL: Option<string>,
    linkdinURL: Option<string>,
    email: seq<string>,
    userId: string,
    updatedBy: Option<string>)

  /** `value?.trim() ? value : null`. */
  function NullIfBlank(value: string): (r: Option<string>)
    ensures r == None <==> IsBlank(value)
    ensures r.Some? ==> r.value == value && !IsBlank(r.value)
  {
    if Trim(value) != [] then Some(value) else None
  }

  /** The optional fields of a payload, null or a non-blank value. */
  predicate OptionalFieldsNormalised(p: LeadPayload) {
    (p.workEmail.Some? ==> !IsBlank(p.workEmail.value))
    && (p.websiteURL.Some? ==> !IsBlank(p.websiteURL.value))
    && (p.linkdinURL.Some? ==> !IsBlank(p.linkdinURL.value))
  }

  /** The payload's fields that come from the form, as the form holds them. */
  predicate CarriesForm(p: LeadPayload, form: LeadForm) {
    p.firstName == form.firstName && p.industry == form.industry
    && p.whatsUpNumber == form.whatsUpNumber && p.status == form.status && p.priority == form.priority
    && p.workEmail == NullIfBlank(form.workEmail)
    && p.websiteURL == NullIfBlank(form.websiteURL)
    && p.linkdinURL == NullIfBlank(form.linkdinURL)
  }

  /** `list.filter((_, i) => i !== index)`. */
  function Without(list: seq<string>, index: nat): (r: seq<string>)
    ensures index < |list| ==> r == list[..index] + list[index + 1..]
    ensures index >= |list| ==> r == list
  {
    if list == [] then []
    else if index == 0 then list[1..]
    else [list[0]] + Without(list[1..], index - 1)
  }

  /** `[...list, ""]`. */
  function WithBlankSlot(list: seq<string>): (r: seq<string>)
    ensures |r| == |list| + 1 && r[..|list|] == list && r[|list|] == ""
  {
    list + [""]
  }
}
