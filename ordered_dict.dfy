/**
 * Python's `dict`: a finite map that remembers the order in which keys were
 * first inserted. The control plane's registries are dicts, and the order
 * shows through in listings, pagination and in the order of clean-up.
 */
module OrderedDict {
  import opened Wrappers

  predicate Distinct(s: seq<string>) {
    forall i, j :: 0 <= i < j < |s| ==> s[i] != s[j]
  }

  /** String-keyed, as every registry here is. `keys` lists every key once, oldest first; `entries` holds the values. */
  datatype Dict<V> = Dict(keys: seq<string>, entries: map<string, V>)
  {
    predicate Valid() {
      Distinct(keys) && (forall k :: k in entries ==> k in keys) && (forall k :: k in keys ==> k in entries)
    }

    function Get(k: string): Option<V> {
      if k in entries then Some(entries[k]) else None
    }

    /** `d[k] = v`: a new key goes to the end, an existing key keeps its place. */
    function Put(k: string, v: V): (r: Dict<V>)
      requires Valid()
      ensures r.Valid()
      ensures r.entries == entries[k := v]
      ensures k in entries ==> r.keys == keys
      ensures k !in entries ==> r.keys == keys + [k]
    {
      if k in entries then Dict(keys, entries[k := v]) else Dict(keys + [k], entries[k := v])
    }

    /** `del d[k]` (or nothing when `k` is absent): the other keys keep their order. */
    function Remove(k: string): (r: Dict<V>)
      requires Valid()
      ensures r.Valid()
      ensures r.entries == entries - {k}
      ensures r.keys == Without(keys, k)
    {
      WithoutDistinct(keys, k);
      Dict(Without(keys, k), entries - {k})
    }

    /** `list(d.values())`. */
    function Values(): (vs: seq<V>)
      requires Valid()
      ensures |vs| == |keys|
      ensures forall i :: 0 <= i < |keys| ==> vs[i] == entries[keys[i]]
    {
      seq(|keys|, i requires 0 <= i < |keys| => entries[keys[i]])
    }
  }

  function Empty<V>(): (d: Dict<V>)
    ensures d.Valid() && d.keys == [] && d.entries == map[]
  {
    Dict([], map[])
  }

  /** `s` with every occurrence of `k` dropped, the rest in order. */
  function Without(s: seq<string>, k: string): (r: seq<string>)
    ensures forall x :: x in r <==> x in s && x != k
    ensures |r| <= |s|
    decreases |s|
  {
    if |s| == 0 then []
    else if s[0] == k then Without(s[1..], k)
    else [s[0]] + Without(s[1..], k)
  }

  lemma {:induction false} WithoutDistinct(s: seq<string>, k: string)
    requires Distinct(s)
    ensures Distinct(Without(s, k))
    decreases |s|
  {
    if |s| > 0 {
      WithoutDistinct(s[1..], k);
      if s[0] != k {
        var r := [s[0]] + Without(s[1..], k);
        forall i, j | 0 <= i < j < |r| ensures r[i] != r[j] {
          if i == 0 {
            assert r[j] in Without(s[1..], k);
            assert s[0] !in s[1..];
          } else {
            assert r[i] == Without(s[1..], k)[i - 1] && r[j] == Without(s[1..], k)[j - 1];
          }
        }
      }
    }
  }

  /** Removing a key that is present shortens the key list by exactly one. */
  lemma {:induction false} WithoutPresentLength(s: seq<string>, k: string)
    requires Distinct(s) && k in s
    ensures |Without(s, k)| == |s| - 1
    decreases |s|
  {
    if s[0] != k {
      WithoutPresentLength(s[1..], k);
    } else {
      WithoutAbsent(s[1..], k);
    }
  }

  /** Removing a key that is absent changes nothing. */
  lemma {:induction false} WithoutAbsent(s: seq<string>, k: string)
    requires k !in s
    ensures Without(s, k) == s
    decreases |s|
  {
    if |s| > 0 {
      WithoutAbsent(s[1..], k);
      assert [s[0]] + s[1..] == s;
    }
  }

  /** Dropping a key from a concatenation drops it from each part. */
  lemma {:induction false} WithoutConcat(a: seq<string>, b: seq<string>, k: string)
    ensures Without(a + b, k) == Without(a, k) + Without(b, k)
    decreases |a|
  {
    if |a| > 0 {
      assert (a + b)[1..] == a[1..] + b;
      WithoutConcat(a[1..], b, k);
    } else {
      assert a + b == b;
    }
  }
}
