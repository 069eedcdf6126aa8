/** Values shared by the client widgets and the mock API: an optional value
    (JavaScript's `null`/`undefined` versus a present value), the truthiness
    test JavaScript applies to a string-or-null, and the browser's
    `localStorage`, a string-to-string store updated in place. */
module Common {

  datatype Option<T> = None | Some(value: T)

  /** JavaScript truthiness of a value that is either null or a string:
      null and the empty string are falsy, every other string is truthy. */
  predicate Truthy(v: Option<string>)
  {
    v.Some? && v.value != ""
  }

  /** A key's value in a store's contents, or null when the key is absent. */
  function Lookup(items: map<string, string>, key: string): (v: Option<string>)
    ensures v.Some? <==> key in items
    ensures v.Some? ==> v.value == items[key]
  {
    if key in items then Some(items[key]) else None
  }

  /** The browser's `localStorage`: one shared store of string keys and values. */
  class LocalStorage {
    var items: map<string, string>

    constructor (initial: map<string, string>)
      ensures items == initial
    {
      items := initial;
    }

    /** `getItem(key)`: the stored string, or null when the key is absent. */
    function GetItem(key: string): (v: Option<string>)
      reads this
      ensures v.Some? <==> key in items
      ensures v.Some? ==> v.value == items[key]
      ensures v == Lookup(items, key)
    {
      Lookup(items, key)
    }

    /** `setItem(key, value)`: stores the value under the key, replacing any earlier one. */
    method SetItem(key: string, value: string)
      modifies this
      ensures items == old(items)[key := value]
    {
      items := items[key := value];
    }

    /** `removeItem(key)`: the key is absent afterwards; every other key keeps its value. */
    method RemoveItem(key: string)
      modifies this
      ensures items == old(items) - {key}
    {
      items := items - {key};
    }
  }
}
