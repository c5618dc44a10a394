/**
 * The browser's `localStorage` as the login page and the dashboard shell
 * use it: a `token` string and a `user` record written as JSON.
 */
module Session {
  import opened Wrappers

  /** The user record the server returns; a `None` field is missing or null. */
  datatype UserInfo = UserInfo(firstName: Option<string>, lastName: Option<string>, role: Option<string>)

  /**
   * A stored value: a plain string, or the JSON text of a user record, kept
   * as the record it parses back to.
   */
  datatype Stored = PlainText(text: string) | UserJson(user: UserInfo)

  const TokenKey := "token"
  const UserKey := "user"

  /** The key-value store; each method changes one key and no other. */
  class LocalStorage {
    var items: map<string, Stored>

    constructor (initial: map<string, Stored>)
      ensures items == initial
    {
      items := initial;
    }

    /** `getItem(key)`: the stored value, `None` for null. */
    function GetItem(key: string): (r: Option<Stored>)
      reads this
      ensures r.Some? <==> key in items
      ensures r.Some? ==> r.value == items[key]
    {
      if key in items then Some(items[key]) else None
    }

    /** `setItem(key, value)`. */
    method SetItem(key: string, value: Stored)
      modifies this
      ensures items == old(items)[key := value]
    {
      items := items[key := value];
    }

    /** `removeItem(key)`: removing a missing key changes nothing. */
    method RemoveItem(key: string)
      modifies this
      ensures items == old(items) - {key}
    {
      items := items - {key};
    }
  }
}
