/** The key/value table behind a profile, seen through the generic
    operations the profile declares: reading a key with a default, writing
    a key, and reading a key with a fallback key. The table is abstract:
    what a database row holds is a payload, and a key either has a row or
    has none. */
module BackingStore {
  import opened Values

  type Table = map<string, Value>

  /** Reading a key: the stored payload if the key has a row, otherwise the
      caller's default (itself possibly the invalid variant). The default is
      not written back. */
  function Lookup(t: Table, key: string, d: Variant): (r: Variant)
    ensures key in t ==> r == Some(t[key])
    ensures key !in t ==> r == d
  {
    if key in t then Some(t[key]) else d
  }

  /** The table after writing v under key: recorded only when save holds. */
  function Saved(t: Table, key: string, v: Value, save: bool): (r: Table)
    ensures save ==> key in r && r[key] == v && r - {key} == t - {key}
    ensures !save ==> r == t
  {
    if save then t[key := v] else t
  }

  /** Reading a key with a fallback key: the key's own payload, else the
      fallback key's payload, else the default. */
  function LookupFallback(t: Table, key: string, defaultKey: string, d: Variant): (r: Variant)
    ensures key in t ==> r == Some(t[key])
    ensures key !in t && defaultKey in t ==> r == Some(t[defaultKey])
    ensures key !in t && defaultKey !in t ==> r == d
  {
    Lookup(t, key, Lookup(t, defaultKey, d))
  }

  /** Reading a key at a static kind with no default: the invalid variant
      read back at that kind when the key has no row. */
  function LookupAs(t: Table, key: string, k: Kind): (r: Value)
    ensures r.KindOf() == k
    ensures key !in t ==> r == Null(k)
    ensures key in t && t[key].KindOf() == k ==> r == t[key]
  {
    Convert(Lookup(t, key, None), k)
  }

  /** A saved write is read back under its key whatever the default; an
      unsaved one leaves reads as they were. */
  lemma LookupAfterSaved(t: Table, key: string, v: Value, save: bool, d: Variant)
    ensures Lookup(Saved(t, key, v, save), key, d) == if save then Some(v) else Lookup(t, key, d)
  {
  }

  /** A write under one key leaves every other key's reads as they were. */
  lemma LookupOtherKey(t: Table, key: string, other: string, v: Value, save: bool, d: Variant)
    requires other != key
    ensures Lookup(Saved(t, key, v, save), other, d) == Lookup(t, other, d)
  {
  }

  /** A fallback read never returns the default while either key has a row. */
  lemma FallbackIgnoresDefaultWhenStored(t: Table, key: string, defaultKey: string, d1: Variant, d2: Variant)
    requires key in t || defaultKey in t
    ensures LookupFallback(t, key, defaultKey, d1) == LookupFallback(t, key, defaultKey, d2)
  {
  }
}
