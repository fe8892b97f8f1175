/** The slice of Python value semantics the scripts rely on: JSON values as
    decoded by `r.json()`, truthiness, `dict.get`, the short-circuiting `or`,
    and the three ways a script can end (a value, `sys.exit(code)`, or an
    uncaught exception). */
module PyValues {

  datatype Option<T> = None | Some(value: T)

  /** A decoded JSON document. Objects keep their keys in insertion order, as a
      Python dict does; `null` and Python's `None` are both `JNull`. Numbers
      are integers only. */
  datatype Json =
    | JNull
    | JBool(b: bool)
    | JInt(i: int)
    | JStr(s: string)
    | JArr(items: seq<Json>)
    | JObj(fields: seq<(string, Json)>)

  /** How a script run ends: with a value (normal completion), through
      `sys.exit(code)`, or with an exception nobody catches. */
  datatype Outcome<T> = Done(value: T) | Exit(code: int) | Crash

  /** Re-types an outcome that carries no value. */
  function Fail<T, U>(o: Outcome<T>): (r: Outcome<U>)
    requires !o.Done?
    ensures r.Crash? == o.Crash? && (o.Exit? ==> r == Exit(o.code))
  {
    if o.Crash? then Crash else Exit(o.code)
  }

  /** Python truthiness: `None`, `False`, `0`, `""`, `[]` and `{}` are false. */
  predicate Truthy(v: Json) {
    match v
    case JNull => false
    case JBool(b) => b
    case JInt(i) => i != 0
    case JStr(s) => s != ""
    case JArr(items) => items != []
    case JObj(fields) => fields != []
  }

  /** The keys of an object, in order. */
  function Keys(fields: seq<(string, Json)>): (ks: seq<string>)
    ensures |ks| == |fields|
    ensures forall i :: 0 <= i < |fields| ==> ks[i] == fields[i].0
  {
    if fields == [] then [] else [fields[0].0] + Keys(fields[1..])
  }

  /** The value stored under key `k`, if any. */
  function Lookup(fields: seq<(string, Json)>, k: string): (r: Option<Json>)
    ensures r.None? <==> k !in Keys(fields)
    ensures r.Some? ==> exists i :: 0 <= i < |fields| && fields[i] == (k, r.value)
  {
    if fields == [] then None
    else if fields[0].0 == k then Some(fields[0].1)
    else Lookup(fields[1..], k)
  }

  /** `d.get(k)` on a dict: the stored value, or `None` when the key is absent. */
  function Field(fields: seq<(string, Json)>, k: string): Json {
    match Lookup(fields, k)
    case Some(v) => v
    case None => JNull
  }

  /** `v.get(k)` on any value: only a dict has a `get` method, so anything
      else raises `AttributeError`. */
  function DictGet(v: Json, k: string): (r: Outcome<Json>)
    ensures r.Crash? <==> !v.JObj?
    ensures v.JObj? ==> r == Done(Field(v.fields, k))
  {
    match v
    case JObj(fields) => Done(Field(fields, k))
    case _ => Crash
  }

  /** `v.get(k, default)`: the default is used only when the key is absent,
      not when the stored value is falsy. */
  function DictGetOr(v: Json, k: string, default: Json): (r: Outcome<Json>)
    ensures r.Crash? <==> !v.JObj?
    ensures v.JObj? && k in Keys(v.fields) ==> r == DictGet(v, k)
    ensures v.JObj? && k !in Keys(v.fields) ==> r == Done(default)
  {
    match v
    case JObj(fields) =>
      (match Lookup(fields, k)
       case Some(x) => Done(x)
       case None => Done(default))
    case _ => Crash
  }

  /** `o.get(k)` where `o` is the outcome of evaluating the receiver. */
  function GetOn(o: Outcome<Json>, k: string): Outcome<Json> {
    match o
    case Done(v) => DictGet(v, k)
    case Exit(c) => Exit(c)
    case Crash => Crash
  }

  /** Python `a or b`: the left operand when it is truthy, otherwise the right
      one. `b` is only looked at when `a` is falsy, so a crash in `b` matters
      only then. */
  function PyOr(a: Outcome<Json>, b: Outcome<Json>): (r: Outcome<Json>)
    ensures a.Done? && Truthy(a.value) ==> r == a
    ensures a.Done? && !Truthy(a.value) ==> r == b
    ensures !a.Done? ==> r == a
  {
    match a
    case Done(v) => if Truthy(v) then a else b
    case _ => a
  }

  /** The first truthy value of a sequence of candidates, if any. */
  function FirstTruthy(s: seq<Json>): (r: Option<Json>)
    ensures r.None? <==> forall i :: 0 <= i < |s| ==> !Truthy(s[i])
    ensures r.Some? ==> Truthy(r.value)
    ensures r.Some? ==> exists i :: 0 <= i < |s| && s[i] == r.value && FalsyBefore(s, i)
  {
    if s == [] then None
    else if Truthy(s[0]) then
      assert FalsyBefore(s, 0);
      Some(s[0])
    else
      var r := FirstTruthy(s[1..]);
      if r.Some? then
        var i :| 0 <= i < |s[1..]| && s[1..][i] == r.value && FalsyBefore(s[1..], i);
        assert FalsyBefore(s, i + 1);
        r
      else
        r
  }

  /** Every candidate before position `i` is falsy. */
  predicate FalsyBefore(s: seq<Json>, i: int)
    requires 0 <= i <= |s|
  {
    forall j :: 0 <= j < i ==> !Truthy(s[j])
  }

  /** `if not token: sys.exit(1)` applied to the first truthy candidate. */
  function TokenOrExit(first: Option<Json>): (r: Outcome<Json>)
    ensures r.Done? <==> first.Some?
    ensures r.Done? ==> r.value == first.value
    ensures !r.Done? ==> r == Exit(1)
  {
    match first
    case Some(t) => Done(t)
    case None => Exit(1)
  }

  /** Trying candidate `x` before the list `s`. */
  lemma FirstTruthyCons(x: Json, s: seq<Json>)
    ensures FirstTruthy([x] + s) == if Truthy(x) then Some(x) else FirstTruthy(s)
  {
  }

  /** Searching a concatenation: the second part is reached only when the
      first has no truthy candidate. */
  lemma {:induction false} FirstTruthyAppend(a: seq<Json>, b: seq<Json>)
    ensures FirstTruthy(a + b) == if FirstTruthy(a).Some? then FirstTruthy(a) else FirstTruthy(b)
  {
    if a == [] {
      assert a + b == b;
    } else {
      FirstTruthyCons(a[0], a[1..] + b);
      assert [a[0]] + (a[1..] + b) == a + b;
      FirstTruthyCons(a[0], a[1..]);
      assert [a[0]] + a[1..] == a;
      FirstTruthyAppend(a[1..], b);
    }
  }

  /** Searching a sequence in which some entries were replaced by the truthy
      placeholder `p`: a hit other than `p` is the first hit of the original
      too, and no hit means the original has none either. */
  lemma FirstTruthyThroughMask(masked: seq<Json>, orig: seq<Json>, p: Json)
    requires Truthy(p) && MaskedBy(masked, orig, p)
    ensures FirstTruthy(masked).None? ==> FirstTruthy(orig).None?
    ensures FirstTruthy(masked).Some? && FirstTruthy(masked).value != p ==>
      FirstTruthy(orig) == FirstTruthy(masked)
  {
  }

  /** `masked` is `orig` with some entries replaced by `p`. */
  predicate MaskedBy(masked: seq<Json>, orig: seq<Json>, p: Json) {
    |masked| == |orig| && forall i :: 0 <= i < |orig| ==> masked[i] == orig[i] || masked[i] == p
  }

  /** The search over two candidates, spelt out. */
  lemma FirstTruthyOfTwo(a: Json, b: Json)
    ensures FirstTruthy([a, b]) ==
      if Truthy(a) then Some(a) else if Truthy(b) then Some(b) else None
  {
  }

  /** The search over three candidates, spelt out. */
  lemma FirstTruthyOfThree(a: Json, b: Json, c: Json)
    ensures FirstTruthy([a, b, c]) ==
      if Truthy(a) then Some(a) else if Truthy(b) then Some(b)
      else if Truthy(c) then Some(c) else None
  {
    FirstTruthyOfTwo(b, c);
    FirstTruthyCons(a, [b, c]);
    assert [a] + [b, c] == [a, b, c];
  }

  /** The search over four candidates, spelt out. */
  lemma FirstTruthyOfFour(a: Json, b: Json, c: Json, d: Json)
    ensures FirstTruthy([a, b, c, d]) ==
      if Truthy(a) then Some(a) else if Truthy(b) then Some(b)
      else if Truthy(c) then Some(c) else if Truthy(d) then Some(d) else None
  {
    FirstTruthyOfThree(b, c, d);
    FirstTruthyCons(a, [b, c, d]);
    assert [a] + [b, c, d] == [a, b, c, d];
  }

  /** Masking two sequences entry-wise masks their concatenation. */
  lemma MaskedByAppend(m1: seq<Json>, o1: seq<Json>, m2: seq<Json>, o2: seq<Json>, p: Json)
    requires MaskedBy(m1, o1, p) && MaskedBy(m2, o2, p)
    ensures MaskedBy(m1 + m2, o1 + o2, p)
  {
  }

  /** Four entry-wise masks make a masked sequence of four. */
  lemma MaskedByOfFour(m0: Json, m1: Json, m2: Json, m3: Json, o0: Json, o1: Json, o2: Json, o3: Json, p: Json)
    requires m0 == o0 || m0 == p
    requires m1 == o1 || m1 == p
    requires m2 == o2 || m2 == p
    requires m3 == o3 || m3 == p
    ensures MaskedBy([m0, m1, m2, m3], [o0, o1, o2, o3], p)
  {
  }
}
