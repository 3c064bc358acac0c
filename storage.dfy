/** The browser's key-value storage: string keys to string values. */
module Storage {
  import opened Options

  /** `getItem` on a snapshot of the storage: the value under the key, or null. */
  function Lookup(items: map<string, string>, key: string): (r: Option<string>)
    ensures r.Some? <==> key in items
    ensures r.Some? ==> r.value == items[key]
  {
    if key in items then Some(items[key]) else None
  }

  /** Writing a key and reading it back gives the value written; other keys are untouched. */
  lemma LookupAfterWrite(items: map<string, string>, key: string, value: string, other: string)
    ensures Lookup(items[key := value], key) == Some(value)
    ensures other != key ==> Lookup(items[key := value], other) == Lookup(items, other)
  {
  }

  class LocalStorage {
    var items: map<string, string>

    constructor(initial: map<string, string>)
      ensures items == initial
    {
      items := initial;
    }

    function GetItem(key: string): Option<string>
      reads this
    {
      Lookup(items, key)
    }

    method SetItem(key: string, value: string)
      modifies this
      ensures items == old(items)[key := value]
    {
      items := items[key := value];
    }
  }
}
