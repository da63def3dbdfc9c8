/** The browser's `localStorage` as the client uses it: one process-wide
    string-to-string dictionary, holding the session under four keys that
    are written and removed one at a time. */
module SessionStore {
  import opened Common

  const AccessKey := "access"
  const RefreshKey := "refresh"
  const UserKey := "user"
  const IsStaffKey := "is_staff"

  /** The four entries that make up a session. */
  const SessionKeys: set<string> := {AccessKey, RefreshKey, UserKey, IsStaffKey}

  /** `localStorage.getItem(key)`: `null` (None) when the key is absent. */
  function Lookup(items: map<string, string>, key: string): (v: Option<string>)
    ensures v.Some? <==> key in items
    ensures v.Some? ==> v.value == items[key]
  {
    if key in items then Some(items[key]) else None
  }

  /** `!!localStorage.getItem(key)`: the entry exists and is not empty. */
  predicate Holds(items: map<string, string>, key: string) {
    key in items && items[key] != ""
  }

  class Storage {
    var items: map<string, string>

    constructor (initial: map<string, string>)
      ensures items == initial
    {
      items := initial;
    }

    method Get(key: string) returns (v: Option<string>)
      ensures v == Lookup(items, key)
    {
      v := if key in items then Some(items[key]) else None;
    }

    method Set(key: string, value: string)
      modifies this
      ensures items == old(items)[key := value]
    {
      items := items[key := value];
    }

    method Remove(key: string)
      modifies this
      ensures items == old(items) - {key}
    {
      items := items - {key};
    }
  }
}
