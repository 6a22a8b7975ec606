/**
 * The storage wrapper: an in-memory `Storage` backed by a `Map` (used when the
 * browser's storage is missing or refuses a probe write), JSON helpers with a
 * fallback, and wrappers that swallow every exception.  A `Map` iterates its
 * keys in first-insertion order, so the store is an ordered key list plus the
 * key-to-value map.
 */
module Storage {
  import opened Wrappers
  import opened Sequences

  /** The contents of a store: the keys in insertion order and their values. */
  datatype Store = Store(order: seq<string>, entries: map<string, string>)

  /** The keys listed once each, and exactly the keys that have a value. */
  ghost predicate Valid(s: Store)
  {
    && (forall i, j :: 0 <= i < j < |s.order| ==> s.order[i] != s.order[j])
    && (forall k :: k in s.entries <==> k in s.order)
  }

  const Empty := Store([], map[])

  function Other(key: string): string -> bool
  {
    (k: string) => k != key
  }

  /** `getItem`: the value, or `null` for a key never set or since removed. */
  function Get(s: Store, key: string): Option<string>
  {
    if key in s.entries then Some(s.entries[key]) else None
  }

  /** `setItem`: a new key goes last; an existing key keeps its place. */
  function Put(s: Store, key: string, value: string): (r: Store)
    ensures Valid(s) ==> Valid(r)
  {
    Store(if key in s.entries then s.order else s.order + [key], s.entries[key := value])
  }

  /** `removeItem`: the key and its value are gone; the other keys keep their order. */
  function Delete(s: Store, key: string): (r: Store)
    ensures Valid(s) ==> Valid(r)
  {
    DeleteKeepsValid(s, key);
    Store(Filter(s.order, Other(key)), s.entries - {key})
  }

  /** `length`: the number of stored keys (`store.size`). */
  function Size(s: Store): nat
  {
    |s.entries.Keys|
  }

  /** `key(index)`: the key at that position in insertion order, or `null` out of range. */
  function KeyAt(s: Store, index: int): (r: Option<string>)
    ensures r.Some? <==> 0 <= index < |s.order|
  {
    if 0 <= index < |s.order| then Some(s.order[index]) else None
  }

  lemma DeleteKeepsValid(s: Store, key: string)
    ensures Valid(s) ==> Valid(Store(Filter(s.order, Other(key)), s.entries - {key}))
  {
    if Valid(s) {
      FilterKeepsDistinct(s.order, Other(key));
      forall k {
        FilterMembers(s.order, Other(key), k);
      }
    }
  }

  lemma {:induction false} FilterKeepsDistinct(s: seq<string>, p: string -> bool)
    requires forall i, j :: 0 <= i < j < |s| ==> s[i] != s[j]
    ensures forall i, j :: 0 <= i < j < |Filter(s, p)| ==> Filter(s, p)[i] != Filter(s, p)[j]
  {
    if |s| > 0 {
      FilterKeepsDistinct(s[1..], p);
      FilterMembers(s[1..], p, s[0]);
      var rest := Filter(s[1..], p);
      assert s[0] !in s[1..];
      if p(s[0]) {
        var r := [s[0]] + rest;
        forall i, j | 0 <= i < j < |r| ensures r[i] != r[j] {
          if i == 0 {
            assert r[j] == rest[j - 1];
          } else {
            assert r[i] == rest[i - 1] && r[j] == rest[j - 1];
          }
        }
      }
    }
  }

  // -------------------------------------------------------------------- laws

  /** Reading after writing: the written key has the new value, every other key its old one. */
  lemma GetAfterSet(s: Store, key: string, value: string, other: string)
    ensures Get(Put(s, key, value), key) == Some(value)
    ensures other != key ==> Get(Put(s, key, value), other) == Get(s, other)
  {
  }

  /** Reading after removing: the removed key is absent, every other key unchanged. */
  lemma GetAfterRemove(s: Store, key: string, other: string)
    ensures Get(Delete(s, key), key) == None
    ensures other != key ==> Get(Delete(s, key), other) == Get(s, other)
  {
  }

  /** A fresh or cleared store holds nothing. */
  lemma GetFromEmpty(key: string)
    ensures Get(Empty, key) == None && Size(Empty) == 0
  {
  }

  lemma {:induction false} DistinctCard(s: seq<string>)
    requires forall i, j :: 0 <= i < j < |s| ==> s[i] != s[j]
    ensures |set k | k in s| == |s|
  {
    if |s| > 0 {
      var init := s[..|s| - 1];
      DistinctCard(init);
      assert (set k | k in s) == (set k | k in init) + {s[|s| - 1]};
      assert s[|s| - 1] !in init;
    }
  }

  /** `length` is the number of distinct keys, which is the length of the key order. */
  lemma LengthIsKeyCount(s: Store)
    requires Valid(s)
    ensures Size(s) == |s.order|
  {
    DistinctCard(s.order);
    assert s.entries.Keys == set k | k in s.order;
  }

  /** Setting a new key adds one; re-setting an existing key leaves the length and the key order alone. */
  lemma SetItemLength(s: Store, key: string, value: string)
    ensures Size(Put(s, key, value)) == Size(s) + (if key in s.entries then 0 else 1)
    ensures key in s.entries ==> Put(s, key, value).order == s.order
  {
    if key !in s.entries {
      assert Put(s, key, value).entries.Keys == s.entries.Keys + {key};
    } else {
      assert Put(s, key, value).entries.Keys == s.entries.Keys;
    }
  }

  /** A newly set key is the last one `key(i)` enumerates. */
  lemma NewKeyIsLast(s: Store, key: string, value: string)
    requires Valid(s) && key !in s.entries
    ensures KeyAt(Put(s, key, value), Size(s)) == Some(key)
  {
    LengthIsKeyCount(s);
  }

  // ------------------------------------------------------------ memory store

  /** `createMemoryStorage()`. */
  class MemoryStorage {
    var contents: Store

    constructor ()
      ensures contents == Empty
    {
      contents := Empty;
    }

    function Length(): nat
      reads this
    {
      Size(contents)
    }

    function GetItem(key: string): Option<string>
      reads this
    {
      Get(contents, key)
    }

    function Key(index: int): Option<string>
      reads this
    {
      KeyAt(contents, index)
    }

    method Clear()
      modifies this
      ensures contents == Empty
    {
      contents := Empty;
    }

    method SetItem(key: string, value: string)
      modifies this
      ensures contents == Put(old(contents), key, value)
      ensures Valid(old(contents)) ==> Valid(contents)
    {
      contents := Put(contents, key, value);
    }

    method RemoveItem(key: string)
      modifies this
      ensures contents == Delete(old(contents), key)
      ensures Valid(old(contents)) ==> Valid(contents)
    {
      contents := Delete(contents, key);
    }
  }

  // ----------------------------------------------------------- safe wrapper

  /** The key `detectStorage` writes and removes again to probe the browser's storage. */
  const ProbeKey: string := "__storage_test__"

  /** Writing the probe key and removing it again only drops that key from the store. */
  lemma ProbeRemovesKey(s: Store)
    ensures Delete(Put(s, ProbeKey, "1"), ProbeKey) == Delete(s, ProbeKey)
  {
    if ProbeKey !in s.entries {
      FilterSnoc(s.order, ProbeKey, Other(ProbeKey));
    }
    assert s.entries[ProbeKey := "1"] - {ProbeKey} == s.entries - {ProbeKey};
  }

  /** `detectStorage`: the browser's storage is used only if there is a window and the probe write succeeds. */
  function DetectStorage(hasWindow: bool, probeThrows: bool): (available: bool)
    ensures available <==> hasWindow && !probeThrows
  {
    if !hasWindow then false else !probeThrows
  }

  /** `getJSON`'s decision: the fallback when the key is absent or its text does not parse. */
  function JsonOrFallback<T>(raw: Option<string>, fallback: T, parse: string -> Attempt<T>): (r: T)
    ensures raw.None? ==> r == fallback
    ensures raw.Some? && parse(raw.value).Threw? ==> r == fallback
    ensures raw.Some? && parse(raw.value).Returned? ==> r == parse(raw.value).value
  {
    match raw
    case None => fallback
    case Some(text) =>
      match parse(text)
      case Returned(v) => v
      case Threw => fallback
  }

  /** What `getJSON` reads back after `setJSON` stored a value, when parsing undoes stringifying. */
  lemma JsonRoundTrip<T>(s: Store, key: string, value: T, fallback: T,
                         stringify: T -> Attempt<string>, parse: string -> Attempt<T>)
    requires stringify(value).Returned?
    requires parse(stringify(value).value) == Returned(value)
    ensures JsonOrFallback(Get(Put(s, key, stringify(value).value), key), fallback, parse) == value
  {
    GetAfterSet(s, key, stringify(value).value, key);
  }

  /**
   * `safeStorage`: every call goes to the chosen storage, and an exception it
   * throws (`throws`) is swallowed: a read gives `null`, a write changes nothing.
   */
  class SafeStorage {
    const isAvailable: bool
    var contents: Store

    /**
     * The browser's storage when detected, otherwise a fresh memory store.  A
     * successful probe has written and removed `ProbeKey` there, so a value
     * the browser held under that key is gone.
     */
    constructor (hasWindow: bool, probeThrows: bool, browserContents: Store)
      ensures isAvailable == DetectStorage(hasWindow, probeThrows)
      ensures contents == if isAvailable then Delete(browserContents, ProbeKey) else Empty
    {
      var available := DetectStorage(hasWindow, probeThrows);
      isAvailable := available;
      if available {
        contents := Delete(Put(browserContents, ProbeKey, "1"), ProbeKey);
        ProbeRemovesKey(browserContents);
      } else {
        contents := Empty;
      }
    }

    method GetItem(key: string, throws: bool) returns (r: Option<string>)
      ensures throws ==> r == None
      ensures !throws ==> r == Get(contents, key)
    {
      if throws {
        return None;
      }
      return Get(contents, key);
    }

    method SetItem(key: string, value: string, throws: bool)
      modifies this
      ensures contents == if throws then old(contents) else Put(old(contents), key, value)
    {
      if !throws {
        contents := Put(contents, key, value);
      }
    }

    method RemoveItem(key: string, throws: bool)
      modifies this
      ensures contents == if throws then old(contents) else Delete(old(contents), key)
    {
      if !throws {
        contents := Delete(contents, key);
      }
    }

    /** `getJSON`: the parsed value, or the fallback when the read fails, the key is absent or the text does not parse. */
    method GetJSON<T>(key: string, fallback: T, throws: bool, parse: string -> Attempt<T>) returns (r: T)
      ensures throws || key !in contents.entries ==> r == fallback
      ensures !throws && key in contents.entries ==>
        r == (match parse(contents.entries[key]) case Returned(v) => v case Threw => fallback)
    {
      var raw := GetItem(key, throws);
      r := JsonOrFallback(raw, fallback, parse);
    }

    /** `setJSON`: stores the text when stringifying succeeds; a failure of either step is ignored. */
    method SetJSON<T>(key: string, value: T, stringify: T -> Attempt<string>, throws: bool)
      modifies this
      ensures contents == if stringify(value).Returned? && !throws
                          then Put(old(contents), key, stringify(value).value)
                          else old(contents)
    {
      match stringify(value)
      case Returned(raw) =>
        SetItem(key, raw, throws);
      case Threw =>
    }
  }
}
