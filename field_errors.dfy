/**
 * The field-keyed error map the forms render inline, its per-index email
 * keys, and the shapes of the error bodies the server returns.
 */
module FieldErrors {
  import opened Wrappers
  import opened Text

  /** A `Record<string, string>` of error messages, keyed by field. */
  type Errors = map<string, string>

  /** `key` is present exactly when `present` holds, and then carries `msg`. */
  predicate KeyRule(errs: Errors, key: string, present: bool, msg: string) {
    (key in errs <==> present) && (key in errs ==> errs[key] == msg)
  }

  /** `if (present) errs[key] = msg;`, on a map that does not hold `key` yet; nothing else changes. */
  method SetIf(errs: Errors, key: string, present: bool, msg: string) returns (r: Errors)
    requires key !in errs
    ensures KeyRule(r, key, present, msg)
    ensures r.Keys <= errs.Keys + {key}
    ensures forall k :: k in errs ==> k in r && r[k] == errs[k]
  {
    r := errs;
    if present {
      r := r[key := msg];
    }
  }

  /** `key.startsWith("email_")`. */
  predicate IsEmailKey(k: string) {
    |k| >= 6 && k[..6] == "email_"
  }

  /** The key `email_${i}` under which the message of the i-th email input is kept. */
  function EmailKey(i: nat): (k: string)
    ensures IsEmailKey(k)
  {
    "email_" + NatToString(i)
  }

  /** Two inputs never share a key. */
  lemma EmailKeyInjective(i: nat, j: nat)
    ensures EmailKey(i) == EmailKey(j) ==> i == j
  {
    if EmailKey(i) == EmailKey(j) {
      assert NatToString(i) == EmailKey(i)[6..] == EmailKey(j)[6..] == NatToString(j);
      NatToStringInjective(i, j);
    }
  }

  /** None of the form-level keys is an email input's key. */
  lemma FieldKeysAreNotEmailKeys()
    ensures !IsEmailKey("emails") && !IsEmailKey("form") && !IsEmailKey("workEmail")
  {
    assert "emails"[5] != "email_"[5];
  }

  /**
   * The loop `Object.keys(m).filter(..).forEach((key) => delete m[key])`:
   * each doomed key is deleted in turn, and nothing else changes.
   */
  method DeleteKeys(prev: Errors, doomed: set<string>) returns (m: Errors)
    ensures m.Keys == prev.Keys - doomed
    ensures forall k :: k in m ==> m[k] == prev[k]
  {
    m := prev;
    var pending := doomed * prev.Keys;
    while pending != {}
      invariant pending <= m.Keys
      invariant m.Keys == prev.Keys - (doomed * prev.Keys - pending)
      invariant forall k :: k in m ==> m[k] == prev[k]
      decreases pending
    {
      var key :| key in pending;
      m := m - {key};
      pending := pending - {key};
    }
  }

  /** A value in the server's `errors` object: a message or a list of messages. */
  datatype FieldValue = Message(text: string) | Messages(texts: seq<string>)

  /** The `errors` property of a server error body. */
  datatype ServerErrors =
    | NoErrors                                   // missing, null or another falsy value
    | ErrorList(items: seq<string>)              // an array of messages
    | ErrorObject(entries: seq<(string, FieldValue)>)  // an object, entries in property order
    | ErrorText(text: string)                    // a non-empty string or other primitive

  /** The error body: `err.response.data`, or the thrown error itself when there is none. */
  datatype ServerBody = ServerBody(message: Option<string>, error: Option<string>, errors: ServerErrors)

  /** A JavaScript value that is a string is truthy exactly when it is non-empty. */
  predicate Truthy(o: Option<string>) {
    o.Some? && o.value != ""
  }

  /** `server?.message || server?.error || err?.message || "Something went wrong"`. */
  function FallbackMessage(server: ServerBody, errMessage: Option<string>): (msg: string)
    ensures msg != ""
    ensures Truthy(server.message) ==> msg == server.message.value
    ensures !Truthy(server.message) && Truthy(server.error) ==> msg == server.error.value
    ensures !Truthy(server.message) && !Truthy(server.error) && Truthy(errMessage) ==> msg == errMessage.value
    ensures !Truthy(server.message) && !Truthy(server.error) && !Truthy(errMessage) ==> msg == "Something went wrong"
  {
    if Truthy(server.message) then server.message.value
    else if Truthy(server.error) then server.error.value
    else if Truthy(errMessage) then errMessage.value
    else "Something went wrong"
  }

  /** The object that assigning each entry's key in turn builds: later entries overwrite earlier ones. */
  function Overlay(entries: seq<(string, string)>): Errors
  {
    if entries == [] then map[]
    else Overlay(entries[..|entries| - 1])[entries[|entries| - 1].0 := entries[|entries| - 1].1]
  }

  /** Every key that occurs is present, with the message of its last occurrence. */
  lemma {:induction false} OverlayMeaning(entries: seq<(string, string)>)
    ensures Overlay(entries).Keys == set e | e in entries :: e.0
    ensures forall i :: 0 <= i < |entries| && (forall j :: i < j < |entries| ==> entries[j].0 != entries[i].0)
              ==> Overlay(entries)[entries[i].0] == entries[i].1
  {
    if entries != [] {
      var init := entries[..|entries| - 1];
      OverlayMeaning(init);
      assert entries == init + [entries[|entries| - 1]];
      forall i | 0 <= i < |entries| - 1 && (forall j :: i < j < |entries| ==> entries[j].0 != entries[i].0)
        ensures Overlay(entries)[entries[i].0] == entries[i].1
      {
        assert init[i] == entries[i];
        assert forall j :: i < j < |init| ==> init[j].0 != init[i].0;
      }
    }
  }

  /** The loop `Object.entries(errors).forEach(([key, val]) => fieldErrors[key] = msg)`. */
  method CollectFieldErrors(entries: seq<(string, string)>) returns (fieldErrors: Errors)
    ensures fieldErrors == Overlay(entries)
  {
    fieldErrors := map[];
    var n := 0;
    while n < |entries|
      invariant 0 <= n <= |entries|
      invariant fieldErrors == Overlay(entries[..n])
    {
      var (key, msg) := entries[n];
      assert entries[..n + 1][..n] == entries[..n];
      fieldErrors := fieldErrors[key := msg];
      n := n + 1;
    }
    assert entries[..n] == entries;
  }

  /** `{ ...prev, ...fieldErrors, form: message }`: later sources win. */
  function MergeServerErrors(prev: Errors, fieldErrors: Errors, message: string): (r: Errors)
    ensures r.Keys == prev.Keys + fieldErrors.Keys + {"form"}
    ensures r["form"] == message
    ensures forall k :: k in fieldErrors && k != "form" ==> r[k] == fieldErrors[k]
    ensures forall k :: k in prev && k !in fieldErrors && k != "form" ==> r[k] == prev[k]
  {
    prev + fieldErrors + map["form" := message]
  }
}
