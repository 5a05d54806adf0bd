/**
 * The browser's localStorage as the preference code sees it: a string map
 * that may be unavailable. Every access in the source sits inside a
 * try/catch, so a failed read behaves as an absent key and a failed write
 * changes nothing; neither raises.
 */
module WebStorage {
  import opened Wrappers

  /** A snapshot of localStorage: whether it can be used, and its entries. */
  datatype Store = Store(available: bool, entries: map<string, string>)

  /** `localStorage.getItem(key)` guarded by try/catch: absent or failed is `None`. */
  function GetItem(st: Store, key: string): (r: Option<string>)
    ensures r.Some? <==> st.available && key in st.entries
    ensures r.Some? ==> r.value == st.entries[key]
  {
    if st.available && key in st.entries then Some(st.entries[key]) else None
  }

  /** `localStorage.setItem(key, value)` guarded by try/catch: a failed write is a no-op. */
  function WithItem(st: Store, key: string, value: string): (r: Store)
    ensures r.available == st.available
    ensures r.entries.Keys == if st.available then st.entries.Keys + {key} else st.entries.Keys
    ensures forall k :: k in r.entries && k != key ==> r.entries[k] == st.entries[k]
    ensures st.available ==> key in r.entries && r.entries[key] == value
    ensures !st.available ==> r == st
  {
    if st.available then st.(entries := st.entries[key := value]) else st
  }

  /** A write is read back, when storage works; otherwise nothing is read. */
  lemma ReadYourWrite(st: Store, key: string, value: string)
    ensures GetItem(WithItem(st, key, value), key) == if st.available then Some(value) else None
  {
  }

  /** A write to one key leaves every other key as it was. */
  lemma WriteKeepsOtherKeys(st: Store, key: string, other: string, value: string)
    requires other != key
    ensures GetItem(WithItem(st, key, value), other) == GetItem(st, other)
  {
  }

  /** Writing the value a key already holds changes nothing. */
  lemma RewriteIsNoOp(st: Store, key: string)
    requires key in st.entries
    ensures WithItem(st, key, st.entries[key]) == st
  {
  }

  /** The page's single localStorage object, shared by every preference kind. */
  class LocalStorage {
    var available: bool
    var entries: map<string, string>

    constructor (available: bool, entries: map<string, string>)
      ensures this.available == available && this.entries == entries
    {
      this.available := available;
      this.entries := entries;
    }

    function Snapshot(): (st: Store)
      reads this
    {
      Store(available, entries)
    }

    method SetItem(key: string, value: string)
      modifies this
      ensures Snapshot() == WithItem(old(Snapshot()), key, value)
    {
      if available {
        entries := entries[key := value];
      }
    }
  }
}
