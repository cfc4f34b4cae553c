/** Python values as the core sees them: the JSON-like data that flows through
    dicts, files and model dumps, with Python's truthiness and dict operations. */
module PyJson {

  /** A Python value restricted to what JSON can hold. Numbers are one kind
      (Python compares 1 == 1.0), and a dict keeps its insertion order. */
  datatype Json =
    | JNull
    | JBool(b: bool)
    | JNum(n: real)
    | JStr(s: string)
    | JList(items: seq<Json>)
    | JObj(fields: seq<Field>)

  /** One key/value slot of a dict. */
  datatype Field = Field(key: string, val: Json)

  datatype Option<T> = None | Some(value: T)
  {
    predicate IsFailure() { None? }

    function PropagateFailure<U>(): Option<U>
      requires None?
    {
      None
    }

    function Extract(): T
      requires Some?
    {
      value
    }
  }

  /** What a Python call does: return a value or raise an exception. */
  datatype Outcome<T> = Returned(value: T) | Raised(error: string)
  {
    predicate IsFailure() { Raised? }

    function PropagateFailure<U>(): Outcome<U>
      requires Raised?
    {
      Raised(error)
    }

    function Extract(): T
      requires Returned?
    {
      value
    }
  }

  /** `bool(v)` in Python. */
  predicate Truthy(v: Json)
  {
    match v
    case JNull => false
    case JBool(b) => b
    case JNum(n) => n != 0.0
    case JStr(s) => s != ""
    case JList(xs) => xs != []
    case JObj(fs) => fs != []
  }

  /** `for v in data`: a list yields its items, a dict its keys and a string
      its characters; anything else is not iterable. */
  function Iterate(data: Json): (r: Outcome<seq<Json>>)
    ensures data.JList? ==> r == Returned(data.items)
    ensures data.JObj? ==>
      (r.Returned? && |r.value| == |data.fields| &&
       forall i :: 0 <= i < |data.fields| ==> r.value[i] == JStr(data.fields[i].key))
    ensures data.JStr? ==>
      (r.Returned? && |r.value| == |data.s| &&
       forall i :: 0 <= i < |data.s| ==> r.value[i] == JStr([data.s[i]]))
    ensures r.Raised? <==> data.JNull? || data.JBool? || data.JNum?
  {
    match data
    case JList(xs) => Returned(xs)
    case JObj(fs) => Returned(seq(|fs|, i requires 0 <= i < |fs| => JStr(fs[i].key)))
    case JStr(s) => Returned(seq(|s|, i requires 0 <= i < |s| => JStr([s[i]])))
    case _ => Raised("TypeError: object is not iterable")
  }

  /** The keys of a dict, in insertion order. */
  function Keys(fs: seq<Field>): (ks: seq<string>)
    ensures |ks| == |fs|
    ensures forall i :: 0 <= i < |fs| ==> ks[i] == fs[i].key
  {
    if fs == [] then [] else [fs[0].key] + Keys(fs[1..])
  }

  /** `dict.values()`, in insertion order. */
  function Values(fs: seq<Field>): (vs: seq<Json>)
    ensures |vs| == |fs|
    ensures forall i :: 0 <= i < |fs| ==> vs[i] == fs[i].val
  {
    if fs == [] then [] else [fs[0].val] + Values(fs[1..])
  }

  /** A dict never holds the same key twice. */
  predicate UniqueKeys(fs: seq<Field>)
  {
    fs == [] || (fs[0].key !in Keys(fs[1..]) && UniqueKeys(fs[1..]))
  }

  /** `d.get(k)`: the value stored under `k`, if any. */
  function Get(fs: seq<Field>, k: string): (r: Option<Json>)
    ensures r.None? <==> k !in Keys(fs)
  {
    if fs == [] then None
    else if fs[0].key == k then Some(fs[0].val)
    else Get(fs[1..], k)
  }

  /** `d.get(k, default)`. */
  function GetOr(fs: seq<Field>, k: string, default: Json): Json
  {
    match Get(fs, k)
    case Some(v) => v
    case None => default
  }

  /** `d[k] = v`: an existing key keeps its position, a new key goes last. */
  function Set(fs: seq<Field>, k: string, v: Json): (r: seq<Field>)
    ensures k in Keys(r)
  {
    if fs == [] then [Field(k, v)]
    else if fs[0].key == k then [Field(k, v)] + fs[1..]
    else [fs[0]] + Set(fs[1..], k, v)
  }

  /** `d.update(u)` for a dict `u`: its entries are stored one by one, in order. */
  function Update(fs: seq<Field>, us: seq<Field>): seq<Field>
    decreases |us|
  {
    if us == [] then fs else Update(Set(fs, us[0].key, us[0].val), us[1..])
  }

  /** `d.get(k)` on a non-empty dict looks at the first slot, then at the rest. */
  lemma GetFirst(fs: seq<Field>, k: string)
    requires fs != []
    ensures Get(fs, k) == if fs[0].key == k then Some(fs[0].val) else Get(fs[1..], k)
  {
  }

  /** After `d[k] = v`, `d[k]` is `v` and every other key reads as before. */
  lemma {:induction false} GetSet(fs: seq<Field>, k: string, v: Json, k': string)
    ensures Get(Set(fs, k, v), k') == if k' == k then Some(v) else Get(fs, k')
  {
    if fs != [] && fs[0].key != k {
      GetSet(fs[1..], k, v, k');
    }
  }

  /** `d[k] = v` grows the dict by one exactly when `k` was absent. */
  lemma {:induction false} SetLength(fs: seq<Field>, k: string, v: Json)
    ensures |Set(fs, k, v)| == if k in Keys(fs) then |fs| else |fs| + 1
  {
    if fs != [] && fs[0].key != k {
      SetLength(fs[1..], k, v);
    }
  }

  /** Storing under a key never duplicates a key. */
  lemma {:induction false} SetKeys(fs: seq<Field>, k: string, v: Json)
    ensures forall x :: x in Keys(Set(fs, k, v)) <==> x == k || x in Keys(fs)
  {
    if fs != [] && fs[0].key != k {
      SetKeys(fs[1..], k, v);
    }
  }

  lemma {:induction false} SetUnique(fs: seq<Field>, k: string, v: Json)
    requires UniqueKeys(fs)
    ensures UniqueKeys(Set(fs, k, v))
  {
    if fs != [] && fs[0].key != k {
      SetUnique(fs[1..], k, v);
      SetKeys(fs[1..], k, v);
    }
  }

  /** After `d.update(u)`, a key of `u` reads as in `u`, any other key as in `d`. */
  lemma {:induction false} GetUpdate(fs: seq<Field>, us: seq<Field>, k: string)
    requires UniqueKeys(us)
    ensures Get(Update(fs, us), k) == if k in Keys(us) then Get(us, k) else Get(fs, k)
    decreases |us|
  {
    if us != [] {
      GetUpdate(Set(fs, us[0].key, us[0].val), us[1..], k);
      GetSet(fs, us[0].key, us[0].val, k);
      if k == us[0].key {
        assert k !in Keys(us[1..]);
      }
    }
  }
}
