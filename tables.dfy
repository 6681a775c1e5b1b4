/**
 * Lookups in tables written as sequences of (key, value) pairs in declaration
 * order: a Python dict literal, or the members of an `enum.Enum` (member name,
 * member value).
 */
module Tables {
  import opened Wrappers

  /**
   * The value of the first entry whose key is `key`: `SomeEnum[key]`, and
   * `d[key]` for a dict literal whose keys are distinct (a repeated key in a
   * Python dict literal keeps its last value instead).
   */
  function Get<T>(entries: seq<(string, T)>, key: string): (r: Option<T>)
    ensures r.None? <==> forall i :: 0 <= i < |entries| ==> entries[i].0 != key
    ensures r.Some? ==> exists i :: 0 <= i < |entries| && entries[i] == (key, r.value)
  {
    if |entries| == 0 then None
    else if entries[0].0 == key then Some(entries[0].1)
    else Get(entries[1..], key)
  }

  /** Get returns the value of the first entry with the key. */
  lemma {:induction false} GetFirst<T>(entries: seq<(string, T)>, key: string, i: nat)
    requires i < |entries| && entries[i].0 == key
    requires forall k :: 0 <= k < i ==> entries[k].0 != key
    ensures Get(entries, key) == Some(entries[i].1)
  {
    if i > 0 {
      GetFirst(entries[1..], key, i - 1);
    }
  }

  /** The key of the first entry whose value is `v`: the member `SomeEnum(v)` finds. */
  function KeyOf<T(==)>(entries: seq<(string, T)>, v: T): (r: Option<string>)
    ensures r.None? <==> forall i :: 0 <= i < |entries| ==> entries[i].1 != v
    ensures r.Some? ==> exists i :: 0 <= i < |entries| && entries[i] == (r.value, v)
  {
    if |entries| == 0 then None
    else if entries[0].1 == v then Some(entries[0].0)
    else KeyOf(entries[1..], v)
  }

  /** KeyOf returns the key of the first entry with the value. */
  lemma {:induction false} KeyOfFirst<T>(entries: seq<(string, T)>, v: T, i: nat)
    requires i < |entries| && entries[i].1 == v
    requires forall k :: 0 <= k < i ==> entries[k].1 != v
    ensures KeyOf(entries, v) == Some(entries[i].0)
  {
    if i > 0 {
      KeyOfFirst(entries[1..], v, i - 1);
    }
  }
}
