/** The values a dump file holds: the record a poller publishes, built out of
    Python dicts, lists, numbers and strings, and the dict operations the
    exporter applies to it (`d[k]`, `d.get(k, default)`, `d.update(u)`). */
module Snapshot {

  datatype Option<+T> = None | Some(value: T)

  /** The four metric categories; each has its own poller and its own dump file. */
  datatype Category = Info | Stat | Storage | Share

  /** The name a category goes by in the configuration and in the dump file names. */
  function CategoryName(c: Category): string {
    match c
    case Info => "info"
    case Stat => "stat"
    case Storage => "storage"
    case Share => "share"
  }

  /** A value stored in a snapshot. `Int` stands for a Python int (a Python bool is
      an int there, so True is `Int(1)`), `Num` for a float, treated as an opaque
      number, `Str` for every other scalar (strings, None). */
  datatype Value =
    | Int(i: int)
    | Num(x: real)
    | Str(s: string)
    | Dict(fields: Record)
    | List(records: seq<Record>)

  datatype Field = Field(key: string, value: Value)

  /** A Python dict, with its insertion order. */
  type Record = seq<Field>

  /** The exceptions the modelled code can raise. */
  datatype Error =
    | FileNotFound(path: string)
    | KeyError(key: string)
    | IndexError
    | TypeError

  datatype Result<+T> = Ok(value: T) | Err(error: Error)

  /** `isinstance(value, (int, float))` */
  predicate IsNumeric(v: Value) {
    v.Int? || v.Num?
  }

  /** Python's `bool(v)`. */
  predicate Truthy(v: Value) {
    match v
    case Int(i) => i != 0
    case Num(x) => x != 0.0
    case Str(s) => s != []
    case Dict(fields) => fields != []
    case List(records) => records != []
  }

  /** The keys of a dict, in iteration order. */
  function Keys(r: Record): seq<string> {
    seq(|r|, i requires 0 <= i < |r| => r[i].key)
  }

  predicate HasKey(r: Record, k: string) {
    exists i :: 0 <= i < |r| && r[i].key == k
  }

  predicate HasKeys(r: Record, ks: seq<string>) {
    forall k :: k in ks ==> HasKey(r, k)
  }

  /** A dict never holds a key twice. */
  predicate DistinctKeys(r: Record) {
    forall i, j :: 0 <= i < j < |r| ==> r[i].key != r[j].key
  }

  /** `d.get(k)`: the value stored under `k`, if any. */
  function Get(r: Record, k: string): (v: Option<Value>)
    ensures v.Some? <==> HasKey(r, k)
    ensures v.Some? ==> Field(k, v.value) in r
  {
    if r == [] then None
    else if r[0].key == k then Some(r[0].value)
    else
      assert forall i :: 0 < i < |r| ==> r[i] == r[1..][i - 1];
      Get(r[1..], k)
  }

  /** In a dict, a stored field is what a lookup of its key finds. */
  lemma {:induction false} GetStored(r: Record, k: string, v: Value)
    requires DistinctKeys(r) && Field(k, v) in r
    ensures Get(r, k) == Some(v)
  {
    if r[0] != Field(k, v) {
      assert r[0].key != k;
      GetStored(r[1..], k, v);
    }
  }

  /** `d[k]`: raises KeyError when `k` is absent. */
  function Lookup(r: Record, k: string): (v: Result<Value>)
    ensures v.Ok? <==> HasKey(r, k)
    ensures v.Err? ==> v.error == KeyError(k)
    ensures v.Ok? ==> Get(r, k) == Some(v.value)
  {
    match Get(r, k)
    case None => Err(KeyError(k))
    case Some(x) => Ok(x)
  }

  /** `d[k] = v`: afterwards `k` maps to `v` and every other key to what it
      mapped to before. */
  function Set(r: Record, k: string, v: Value): (r': Record)
    ensures Get(r', k) == Some(v)
    ensures forall k' :: k' != k ==> Get(r', k') == Get(r, k')
  {
    if r == [] then [Field(k, v)]
    else if r[0].key == k then
      assert ([Field(k, v)] + r[1..])[1..] == r[1..];
      [Field(k, v)] + r[1..]
    else
      var tail := Set(r[1..], k, v);
      assert ([r[0]] + tail)[1..] == tail;
      [r[0]] + tail
  }

  /** The keys of a dict with a field in front. */
  lemma KeysCons(f: Field, r: Record)
    ensures Keys([f] + r) == [f.key] + Keys(r)
  {
    var a, b := Keys([f] + r), [f.key] + Keys(r);
    assert |a| == |b|;
    forall i | 0 <= i < |a| ensures a[i] == b[i] {
      if i > 0 {
        assert ([f] + r)[i] == r[i - 1];
      }
    }
  }

  /** An existing key keeps its place and a new key goes last. */
  lemma {:induction false} SetKeys(r: Record, k: string, v: Value)
    ensures HasKey(r, k) ==> Keys(Set(r, k, v)) == Keys(r)
    ensures !HasKey(r, k) ==> Keys(Set(r, k, v)) == Keys(r) + [k]
  {
    if r == [] {
      KeysCons(Field(k, v), []);
    } else if r[0].key == k {
      assert HasKey(r, k);
      assert r == [r[0]] + r[1..];
      KeysCons(r[0], r[1..]);
      KeysCons(Field(k, v), r[1..]);
    } else {
      var tail := r[1..];
      assert r == [r[0]] + tail;
      assert Set(r, k, v) == [r[0]] + Set(tail, k, v);
      HasKeyCons(r[0], tail, k);
      KeysCons(r[0], tail);
      SetKeys(tail, k, v);
      KeysCons(r[0], Set(tail, k, v));
    }
  }

  /** A key is in a dict with a field in front when it is that field's key or a
      key of the rest. */
  lemma HasKeyCons(f: Field, r: Record, k: string)
    ensures HasKey([f] + r, k) <==> f.key == k || HasKey(r, k)
  {
    if HasKey(r, k) {
      var i :| 0 <= i < |r| && r[i].key == k;
      assert ([f] + r)[i + 1] == r[i];
    }
    if f.key == k {
      assert ([f] + r)[0].key == k;
    }
    if HasKey([f] + r, k) && f.key != k {
      var i :| 0 <= i < |[f] + r| && ([f] + r)[i].key == k;
      assert r[i - 1] == ([f] + r)[i];
    }
  }

  /** Setting a key keeps a dict free of repeated keys. */
  lemma SetDistinct(r: Record, k: string, v: Value)
    requires DistinctKeys(r)
    ensures DistinctKeys(Set(r, k, v))
  {
    var r' := Set(r, k, v);
    SetKeys(r, k, v);
    forall i, j | 0 <= i < j < |r'| ensures r'[i].key != r'[j].key {
      assert r'[i].key == Keys(r')[i] && r'[j].key == Keys(r')[j];
      if j < |r| {
        assert Keys(r)[i] == r[i].key && Keys(r)[j] == r[j].key;
      } else {
        assert Keys(r)[i] == r[i].key;
      }
    }
  }

  /** `d.update(u)`: every field of `u`, in order, is set in `d`. */
  function Update(r: Record, u: Record): (d: Record)
    ensures u == [] ==> d == r
    decreases |u|
  {
    if u == [] then r else Update(Set(r, u[0].key, u[0].value), u[1..])
  }

  /** After `d.update(u)`, a key of `u` maps to its value in `u`, and every other
      key maps to what it mapped to before. */
  lemma {:induction false} UpdateGet(r: Record, u: Record, k: string)
    ensures !HasKey(u, k) ==> Get(Update(r, u), k) == Get(r, k)
    ensures DistinctKeys(u) && HasKey(u, k) ==> Get(Update(r, u), k) == Get(u, k)
    decreases |u|
  {
    if u != [] {
      var r1 := Set(r, u[0].key, u[0].value);
      UpdateGet(r1, u[1..], k);
      assert forall i :: 0 < i < |u| ==> u[i] == u[1..][i - 1];
      if DistinctKeys(u) && u[0].key == k {
        assert !HasKey(u[1..], k);
      }
    }
  }

  /** `d.update(u)` keeps the keys of `d` in their order, adds new ones after them,
      and keeps a dict free of repeated keys. */
  lemma {:induction false} UpdateKeys(r: Record, u: Record)
    ensures Keys(r) <= Keys(Update(r, u))
    ensures DistinctKeys(r) ==> DistinctKeys(Update(r, u))
    decreases |u|
  {
    if u != [] {
      var r1 := Set(r, u[0].key, u[0].value);
      SetKeys(r, u[0].key, u[0].value);
      UpdateKeys(r1, u[1..]);
      if DistinctKeys(r) {
        SetDistinct(r, u[0].key, u[0].value);
      }
    }
  }
}
