/**
 * Decoded JSON values and Python's subscript operator on them.
 *
 * The channel page parser walks deeply nested key/index paths
 * (`data["contents"]["tabs"][1]...`) and relies on the exception each failed
 * step raises: KeyError or IndexError when a key or an index is absent,
 * TypeError when the value cannot be subscripted that way at all. One step of
 * that walk is `Subscript`, a whole path is `Follow`; neither raises, both
 * report which of the three outcomes Python would have produced.
 */
module JsonTree {

  import opened Wrappers

  /** A value as `json.loads` produces it (floating-point numbers are not modelled). */
  datatype Json =
    | Null
    | Bool(b: bool)
    | Int(n: int)
    | Str(s: string)
    | Array(items: seq<Json>)
    | Object(fields: map<string, Json>)

  /** One subscript: `[key]` with a string, or `[index]` with an int (negative counts from the end). */
  datatype Step = Key(key: string) | Index(index: int)

  /** What one subscript does in Python. */
  datatype Probe =
    | Found(value: Json)  // the subscript succeeded
    | Missing             // KeyError or IndexError
    | Mistyped            // TypeError: the value is not subscriptable by this kind of step

  /** Python's index normalisation for a sequence of length `len`: `i` or `len + i` when in range. */
  function PyIndex(len: nat, i: int): (r: Option<nat>)
    ensures r.Some? <==> -(len as int) <= i < len
    ensures r.Some? ==> r.value < len && (r.value == i || r.value == len + i)
  {
    if 0 <= i < len then Some(i)
    else if -(len as int) <= i < 0 then Some(len + i)
    else None
  }

  /**
   * `j[step]` in Python. A dict never has an int key (JSON keys are strings),
   * so an index into an object is a KeyError; indexing a string gives a
   * one-character string; everything else that is not a list or dict is a
   * TypeError.
   */
  function Subscript(j: Json, step: Step): (r: Probe)
    ensures r.Mistyped? <==> !(j.Object? || (step.Index? && (j.Array? || j.Str?)))
    ensures step.Key? && j.Object? ==> (r.Found? <==> step.key in j.fields)
    ensures step.Index? && j.Array? ==> (r.Found? <==> PyIndex(|j.items|, step.index).Some?)
    ensures step.Index? && j.Str? ==> (r.Found? <==> PyIndex(|j.s|, step.index).Some?)
    ensures r.Found? && j.Str? ==> r.value.Str? && |r.value.s| == 1
  {
    match step
    case Key(k) =>
      if j.Object? then (if k in j.fields then Found(j.fields[k]) else Missing)
      else Mistyped
    case Index(i) =>
      match j
      case Array(items) =>
        var n := PyIndex(|items|, i);
        if n.Some? then Found(items[n.value]) else Missing
      case Str(s) =>
        var n := PyIndex(|s|, i);
        if n.Some? then Found(Str([s[n.value]])) else Missing
      case Object(_) => Missing
      case _ => Mistyped
  }

  /** `j[p0][p1]...` in Python: the first step that does not succeed decides. */
  function Follow(j: Json, path: seq<Step>): (r: Probe)
    ensures path == [] ==> r == Found(j)
    ensures path != [] && (j.Null? || j.Bool? || j.Int?) ==> r == Mistyped
    ensures path != [] && path[0].Key? && !j.Object? ==> r == Mistyped
    decreases |path|
  {
    if path == [] then Found(j)
    else
      match Subscript(j, path[0])
      case Found(v) => Follow(v, path[1..])
      case failed => failed
  }

  /** The path as one `try` block whose `except` catches all three exceptions. */
  function Lookup(j: Json, path: seq<Step>): (r: Option<Json>)
    ensures r.Some? <==> Follow(j, path).Found?
    ensures r.Some? ==> Follow(j, path) == Found(r.value)
  {
    match Follow(j, path)
    case Found(v) => Some(v)
    case _ => None
  }

  /** Following `p + q` is following `p`, then `q` from where `p` ended. */
  lemma {:induction false} FollowAppend(j: Json, p: seq<Step>, q: seq<Step>)
    ensures Follow(j, p + q) == (match Follow(j, p) case Found(v) => Follow(v, q) case failed => failed)
    decreases |p|
  {
    if p == [] {
      assert p + q == q;
    } else {
      assert (p + q)[0] == p[0];
      assert (p + q)[1..] == p[1..] + q;
      match Subscript(j, p[0])
      case Found(v) => FollowAppend(v, p[1..], q);
      case _ =>
    }
  }

  /** A path inside one `try` is the same as its two parts inside nested ones. */
  lemma LookupAppend(j: Json, p: seq<Step>, q: seq<Step>)
    ensures Lookup(j, p + q) == (match Lookup(j, p) case Some(v) => Lookup(v, q) case None => None)
  {
    FollowAppend(j, p, q);
  }

  /** Following the suffix of a path from position `k` takes step `k` first. */
  lemma FollowStep(j: Json, path: seq<Step>, k: nat)
    requires k < |path|
    ensures Follow(j, path[k..]) == (match Subscript(j, path[k]) case Found(v) => Follow(v, path[k + 1..]) case failed => failed)
  {
    assert path[k..][0] == path[k];
    assert path[k..][1..] == path[k + 1..];
  }

  /** The value of one decimal digit character. */
  function DigitValue(c: char): nat
  {
    if '0' <= c <= '9' then c as int - '0' as int else 0
  }

  /** The number a string of decimal digits denotes, most significant digit first. */
  function DigitsValue(s: string): nat
    decreases |s|
  {
    if s == [] then 0 else DigitsValue(s[..|s| - 1]) * 10 + DigitValue(s[|s| - 1])
  }

  /**
   * Python's `str(n)` for a natural number: the decimal digits that denote
   * `n`, without leading zeros (a lone `0` for zero).
   */
  function Decimal(n: nat): (s: string)
    ensures |s| > 0
    ensures forall i :: 0 <= i < |s| ==> '0' <= s[i] <= '9'
    ensures DigitsValue(s) == n
    ensures s[0] == '0' <==> n == 0
  {
    var d := ('0' as int + n % 10) as char;
    if n < 10 then [d]
    else
      var s := Decimal(n / 10) + [d];
      assert s[..|s| - 1] == Decimal(n / 10);
      s
  }

  /**
   * Python's `str(v)` for the scalar values, which is what an f-string writes;
   * `None` for lists and dicts, whose `repr` is not modelled.
   */
  function PyStr(j: Json): (r: Option<string>)
    ensures r.None? <==> j.Array? || j.Object?
    ensures j.Str? ==> r == Some(j.s)
    ensures j.Int? ==> r.Some? && |r.value| > 0 && (r.value[0] == '-' <==> j.n < 0)
    ensures j.Int? && j.n >= 0 ==> DigitsValue(r.value) == j.n
    ensures j.Int? && j.n < 0 ==> DigitsValue(r.value[1..]) == -j.n
  {
    match j
    case Null => Some("None")
    case Bool(b) => Some(if b then "True" else "False")
    case Int(n) => Some(if n < 0 then "-" + Decimal(-n) else Decimal(n))
    case Str(s) => Some(s)
    case _ => None
  }

  /**
   * `s[-n:]` in Python for `n > 0`: the last `n` elements, or all of `s` when
   * it is shorter. (Python's `s[-0:]` is all of `s`; only `n == 11` is used.)
   */
  function LastN<T>(s: seq<T>, n: nat): (r: seq<T>)
    ensures |r| == if |s| < n then |s| else n
    ensures r == s[|s| - |r|..]
  {
    if |s| < n then s else s[|s| - n..]
  }
}
