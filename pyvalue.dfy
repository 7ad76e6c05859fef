/** Python values as the pipeline passes them around: configuration read from YAML,
    chunk metadata, and the str/bool-only metadata that Chroma hands back. Python
    dictionaries keep insertion order, so a dictionary is an association list with
    one entry per key. */
module PyValue {
  import opened Strings

  datatype Value =
    | VNone
    | VBool(b: bool)
    | VInt(i: int)
    /** A float together with its `repr`, which the model does not compute. */
    | VFloat(x: real, text: string)
    | VStr(s: string)
    | VList(items: seq<Value>)
    | VDict(entries: seq<(string, Value)>)

  /** A metadata value as Chroma stores it after cleaning: a bool or a string. */
  datatype Scalar = SBool(b: bool) | SStr(s: string)

  type Dict = seq<(string, Value)>
  type Meta = seq<(string, Scalar)>

  predicate UniqueKeys<V>(d: seq<(string, V)>) {
    forall i, j :: 0 <= i < j < |d| ==> d[i].0 != d[j].0
  }

  function Keys<V>(d: seq<(string, V)>): (ks: seq<string>)
    ensures |ks| == |d| && forall i :: 0 <= i < |d| ==> ks[i] == d[i].0
  {
    seq(|d|, i requires 0 <= i < |d| => d[i].0)
  }

  predicate Has<V>(d: seq<(string, V)>, k: string) {
    exists i :: 0 <= i < |d| && d[i].0 == k
  }

  /** `d.get(k)`: the value stored under `k`, if any. */
  function Get<V>(d: seq<(string, V)>, k: string): (r: Option<V>)
    ensures r.Some? <==> Has(d, k)
  {
    if d == [] then None
    else if d[0].0 == k then Some(d[0].1)
    else
      var r := Get(d[1..], k);
      assert Has(d[1..], k) ==> Has(d, k) by {
        if Has(d[1..], k) { var i :| 0 <= i < |d[1..]| && d[1..][i].0 == k; assert d[i + 1].0 == k; }
      }
      r
  }

  /** `d[k] = v`: an existing key keeps its position, a new key goes last. */
  function Put<V>(d: seq<(string, V)>, k: string, v: V): (r: seq<(string, V)>)
    ensures Keys(r) == if Has(d, k) then Keys(d) else Keys(d) + [k]
  {
    if d == [] then [(k, v)]
    else if d[0].0 == k then
      assert Keys([(k, v)] + d[1..]) == Keys(d);
      [(k, v)] + d[1..]
    else
      var t := Put(d[1..], k, v);
      HasCons(d, k);
      KeysCons(d[0], t);
      KeysCons(d[0], d[1..]);
      [d[0]] + t
  }

  lemma HasCons<V>(d: seq<(string, V)>, k: string)
    requires d != []
    ensures Has(d, k) <==> d[0].0 == k || Has(d[1..], k)
  {
    if Has(d, k) && d[0].0 != k { var i :| 0 <= i < |d| && d[i].0 == k; assert d[1..][i - 1].0 == k; }
    if Has(d[1..], k) { var i :| 0 <= i < |d[1..]| && d[1..][i].0 == k; assert d[i + 1].0 == k; }
  }

  lemma KeysCons<V>(e: (string, V), d: seq<(string, V)>)
    ensures Keys([e] + d) == [e.0] + Keys(d)
  {
  }

  /** Writing a key keeps the keys of a dictionary distinct. */
  lemma {:induction false} PutUnique<V>(d: seq<(string, V)>, k: string, v: V)
    requires UniqueKeys(d)
    ensures UniqueKeys(Put(d, k, v))
  {
    var r := Put(d, k, v);
    if d != [] && d[0].0 != k {
      PutUnique(d[1..], k, v);
      var t := Put(d[1..], k, v);
      assert r == [d[0]] + t;
      forall i | 0 <= i < |t| ensures t[i].0 != d[0].0 {
        assert Keys(t)[i] == t[i].0;
        if i < |d[1..]| { assert Keys(t)[i] == Keys(d[1..])[i] == d[i + 1].0; }
      }
    } else if d != [] {
      assert r == [(k, v)] + d[1..];
      assert forall i :: 1 <= i < |r| ==> r[i] == d[i];
    }
  }

  /** Reading back after `Put`: the key just written has the new value, every other key
      keeps its old one. */
  lemma {:induction false} GetPut<V>(d: seq<(string, V)>, k: string, v: V, k2: string)
    ensures Get(Put(d, k, v), k2) == if k2 == k then Some(v) else Get(d, k2)
  {
    if d != [] && d[0].0 != k {
      GetPut(d[1..], k, v, k2);
    }
  }

  /** `d.update(e)`: every entry of `e`, in order, written with `Put`. */
  function Update<V>(d: seq<(string, V)>, e: seq<(string, V)>): seq<(string, V)>
    decreases |e|
  {
    if e == [] then d else Update(Put(d, e[0].0, e[0].1), e[1..])
  }

  /** Reading back after `Update` with distinct keys (keyword arguments): a key of `e`
      has its value from `e`, any other key keeps its old value. */
  lemma {:induction false} GetUpdate<V>(d: seq<(string, V)>, e: seq<(string, V)>, k: string)
    requires UniqueKeys(e)
    ensures Get(Update(d, e), k) == if Has(e, k) then Get(e, k) else Get(d, k)
    decreases |e|
  {
    if e != [] {
      var rest := e[1..];
      assert UniqueKeys(rest) by {
        forall i, j | 0 <= i < j < |rest| ensures rest[i].0 != rest[j].0 {
          assert rest[i] == e[i + 1] && rest[j] == e[j + 1];
        }
      }
      GetUpdate(Put(d, e[0].0, e[0].1), rest, k);
      GetPut(d, e[0].0, e[0].1, k);
      HasCons(e, k);
    }
  }

  /** Python truthiness. */
  predicate Truthy(v: Value) {
    match v
    case VNone => false
    case VBool(b) => b
    case VInt(i) => i != 0
    case VFloat(x, _) => x != 0.0
    case VStr(s) => s != ""
    case VList(items) => items != []
    case VDict(entries) => entries != []
  }

  predicate ScalarTruthy(v: Scalar) {
    match v
    case SBool(b) => b
    case SStr(s) => s != ""
  }

  function BoolStr(b: bool): string {
    if b then "True" else "False"
  }

  /** `str(v)` (strings inside containers are quoted with `'` and not escaped). */
  function Str(v: Value): string {
    match v
    case VStr(s) => s
    case _ => Repr(v)
  }

  /** `repr(v)` (strings are quoted with `'` and not escaped). */
  function Repr(v: Value): string
    decreases v
  {
    match v
    case VNone => "None"
    case VBool(b) => BoolStr(b)
    case VInt(i) => IntToString(i)
    case VFloat(_, text) => text
    case VStr(s) => "'" + s + "'"
    case VList(items) => "[" + ReprItems(items) + "]"
    case VDict(entries) => "{" + ReprEntries(v, entries) + "}"
  }

  function ReprItems(items: seq<Value>): string
    decreases items
  {
    if items == [] then ""
    else if |items| == 1 then Repr(items[0])
    else Repr(items[0]) + ", " + ReprItems(items[1..])
  }

  function ReprEntries(ghost parent: Value, entries: seq<(string, Value)>): string
    requires parent.VDict? && forall e | e in entries :: e in parent.entries
    decreases parent, |entries|
  {
    if entries == [] then ""
    else
      assert entries[0] in parent.entries;
      var one := "'" + entries[0].0 + "': " + Repr(entries[0].1);
      if |entries| == 1 then one else one + ", " + ReprEntries(parent, entries[1..])
  }

  /** `str(v)` of a stored metadata value. */
  function ScalarStr(v: Scalar): string {
    match v
    case SBool(b) => BoolStr(b)
    case SStr(s) => s
  }
}
