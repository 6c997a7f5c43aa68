/**
 * JSON-like Python values as the control plane passes them around: task
 * payloads, provider responses, manifests and configuration trees. Objects
 * keep their keys in insertion order, as Python dicts do.
 */
module Json {
  import opened Wrappers
  import opened Text

  datatype Json =
    | Null
    | Bool(b: bool)
    | Int(i: int)
    | Str(s: string)
    | Arr(items: seq<Json>)
    | Obj(fields: seq<(string, Json)>)

  /** Python truthiness (`bool(x)`): empty containers, `""`, `0`, `False` and `None` are falsy. */
  predicate Truthy(j: Json) {
    match j
    case Null => false
    case Bool(b) => b
    case Int(i) => i != 0
    case Str(s) => s != ""
    case Arr(items) => items != []
    case Obj(fields) => fields != []
  }

  /** `key in d` for a dict `d`; false for anything that is not a dict. */
  predicate HasKey(j: Json, key: string) {
    j.Obj? && exists i :: 0 <= i < |j.fields| && j.fields[i].0 == key
  }

  function Lookup(fields: seq<(string, Json)>, key: string): (r: Option<Json>)
    ensures r.Some? <==> exists i :: 0 <= i < |fields| && fields[i].0 == key
    ensures r.Some? ==> exists i :: 0 <= i < |fields| && fields[i] == (key, r.value)
    decreases |fields|
  {
    if |fields| == 0 then None
    else if fields[0].0 == key then Some(fields[0].1)
    else
      var r := Lookup(fields[1..], key);
      assert forall i :: 1 <= i < |fields| ==> fields[i] == fields[1..][i - 1];
      r
  }

  /** Looking a key up in two runs of fields: the first run wins. */
  lemma {:induction false} LookupAppend(a: seq<(string, Json)>, b: seq<(string, Json)>, key: string)
    ensures Lookup(a + b, key) == if Lookup(a, key).Some? then Lookup(a, key) else Lookup(b, key)
    decreases |a|
  {
    if |a| == 0 {
      assert a + b == b;
    } else {
      assert (a + b)[0] == a[0] && (a + b)[1..] == a[1..] + b;
      LookupAppend(a[1..], b, key);
    }
  }

  /** The first field carrying the key is the one found. */
  lemma {:induction false} LookupFirst(fields: seq<(string, Json)>, i: nat, key: string)
    requires i < |fields| && fields[i].0 == key
    requires forall j :: 0 <= j < i ==> fields[j].0 != key
    ensures Lookup(fields, key) == Some(fields[i].1)
    decreases i
  {
    if i > 0 {
      assert fields[0].0 != key;
      LookupFirst(fields[1..], i - 1, key);
    }
  }

  /** `d.get(key)` for a dict `d`: `None` when the key is absent. */
  function Get(j: Json, key: string): (r: Option<Json>)
    requires j.Obj?
    ensures r.Some? <==> HasKey(j, key)
  {
    Lookup(j.fields, key)
  }

  /** `d.get(key)` where an absent key and a stored `None` both read as `None`. */
  function GetOrNull(j: Json, key: string): Json
    requires j.Obj?
  {
    match Get(j, key)
    case Some(v) => v
    case None => Null
  }

  function Assign(fields: seq<(string, Json)>, key: string, v: Json): (r: seq<(string, Json)>)
    ensures Lookup(r, key) == Some(v)
    ensures forall k :: k != key ==> Lookup(r, k) == Lookup(fields, k)
    decreases |fields|
  {
    if |fields| == 0 then [(key, v)]
    else if fields[0].0 == key then [(key, v)] + fields[1..]
    else
      var rest := Assign(fields[1..], key, v);
      assert ([fields[0]] + rest)[1..] == rest;
      [fields[0]] + rest
  }

  /** `d[key] = v`: an existing key keeps its place, a new key goes last. */
  function Set(j: Json, key: string, v: Json): (r: Json)
    requires j.Obj?
    ensures r.Obj?
    ensures Get(r, key) == Some(v)
    ensures forall k :: k != key ==> Get(r, k) == Get(j, k)
  {
    Obj(Assign(j.fields, key, v))
  }

  /** Python's `repr` of a string: single quotes unless the text holds one and no double quote. */
  function StrRepr(s: string): string {
    if '\'' in s && '"' !in s then "\"" + Escape(s, '"') + "\"" else "'" + Escape(s, '\'') + "'"
  }

  /** Backslash-escapes the quote character, backslashes and the common control characters. */
  function Escape(s: string, quote: char): string
    decreases |s|
  {
    if |s| == 0 then ""
    else
      var c := s[0];
      (if c == quote || c == '\\' then ['\\', c]
       else if c == '\n' then "\\n"
       else if c == '\r' then "\\r"
       else if c == '\t' then "\\t"
       else [c]) + Escape(s[1..], quote)
  }

  /** `repr(x)`. */
  function Repr(j: Json): string
    decreases j
  {
    match j
    case Null => "None"
    case Bool(b) => if b then "True" else "False"
    case Int(i) => IntToString(i)
    case Str(s) => StrRepr(s)
    case Arr(items) => "[" + Join(seq(|items|, k requires 0 <= k < |items| => Repr(items[k])), ", ") + "]"
    case Obj(fields) =>
      "{" + Join(seq(|fields|, k requires 0 <= k < |fields| => StrRepr(fields[k].0) + ": " + Repr(fields[k].1)), ", ") + "}"
  }

  /** `str(x)`: the text itself for a string, `repr` for everything else. */
  function PyStr(j: Json): string {
    if j.Str? then j.s else Repr(j)
  }
}
