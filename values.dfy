/** The values an options tree holds, the exceptions the serializer can raise,
    Python's ordered dictionaries as sequences of pairs, and Python 2's str()
    and repr() of those values. */
module Values {
  import opened Braces

  /** The classes whose instances appear as option values. */
  datatype ObjKind =
    | FormatterObj                  // common.Formatter: a JavaScript callback body
    | SeriesOptionsObj              // highchart_types.SeriesOptions
    | SeriesObj                     // highchart_types.Series
    | OtherObj(className: string)   // any other class

  /** A Python value inside an options record.  Obj is an instance of a class;
      attrs is its __dict__ in insertion order. */
  datatype Value =
    | Bool(b: bool)
    | Str(s: string)
    | Int(i: int)
    | NoneVal
    | List(items: seq<Value>)
    | Dict(entries: seq<(string, Value)>)
    | Obj(kind: ObjKind, attrs: seq<(string, Value)>)

  /** A Python dict with string keys, in insertion order. */
  type Record = seq<(string, Value)>

  /** The exceptions the modelled code raises. */
  datatype Error =
    | KeyError(key: string)
    | AttributeError(attribute: string)
    | TypeError(reason: string)
    | NotImplementedError

  datatype Result<T> = Ok(value: T) | Err(error: Error) {
    predicate IsFailure() { Err? }
    function PropagateFailure<U>(): Result<U>
      requires Err?
    {
      Err(error)
    }
    function Extract(): T
      requires Ok?
    {
      value
    }
  }

  datatype Option<T> = None | Some(value: T)

  // ---------------------------------------------------------------------
  // Dictionaries as ordered sequences of pairs

  function Keys<V>(r: seq<(string, V)>): (ks: set<string>)
    ensures forall i :: 0 <= i < |r| ==> r[i].0 in ks
    ensures forall k :: k in ks ==> exists i :: 0 <= i < |r| && r[i].0 == k
  {
    if r == [] then {} else {r[0].0} + Keys(r[1..])
  }

  /** d[k], or None where Python raises KeyError. */
  function Lookup<V>(r: seq<(string, V)>, k: string): (o: Option<V>)
    ensures o.None? <==> k !in Keys(r)
    ensures o.Some? ==> exists i :: 0 <= i < |r| && r[i] == (k, o.value)
  {
    if r == [] then None
    else if r[0].0 == k then Some(r[0].1)
    else Lookup(r[1..], k)
  }

  /** d[k] = v: an existing key keeps its place, a new key goes last. */
  function Put<V>(r: seq<(string, V)>, k: string, v: V): seq<(string, V)> {
    if r == [] then [(k, v)]
    else if r[0].0 == k then [(k, v)] + r[1..]
    else [r[0]] + Put(r[1..], k, v)
  }

  /** After d[k] = v, d[k] is v and every other key reads as before. */
  lemma {:induction false} PutLookup<V>(r: seq<(string, V)>, k: string, v: V, k': string)
    ensures Lookup(Put(r, k, v), k') == if k' == k then Some(v) else Lookup(r, k')
  {
    if r == [] {
    } else if r[0].0 == k {
      assert Put(r, k, v)[1..] == r[1..];
    } else {
      assert Put(r, k, v)[1..] == Put(r[1..], k, v);
      PutLookup(r[1..], k, v, k');
    }
  }

  /** d[k] = v adds k to the keys and nothing else. */
  lemma {:induction false} PutKeys<V>(r: seq<(string, V)>, k: string, v: V)
    ensures Keys(Put(r, k, v)) == Keys(r) + {k}
  {
    if r == [] {
    } else if r[0].0 == k {
      assert Put(r, k, v)[1..] == r[1..];
    } else {
      assert Put(r, k, v)[1..] == Put(r[1..], k, v);
      PutKeys(r[1..], k, v);
    }
  }

  /** A key already present keeps its place; a new key goes last. */
  lemma {:induction false} PutPlace<V>(r: seq<(string, V)>, k: string, v: V)
    ensures k in Keys(r) ==> |Put(r, k, v)| == |r|
    ensures k !in Keys(r) ==> Put(r, k, v) == r + [(k, v)]
  {
    if r != [] && r[0].0 != k {
      PutPlace(r[1..], k, v);
      assert k in Keys(r) <==> k in Keys(r[1..]);
      assert r == [r[0]] + r[1..];
    }
  }

  /** Assigning to an existing key replaces its pair where it stands: the
      pairs before it and after it are unchanged. */
  lemma {:induction false} PutInPlace<V>(r: seq<(string, V)>, k: string, v: V, i: nat)
    requires i < |r| && r[i].0 == k
    requires forall j :: 0 <= j < i ==> r[j].0 != k
    ensures Put(r, k, v) == r[..i] + [(k, v)] + r[i + 1..]
  {
    if i > 0 {
      var tail := r[1..];
      PutInPlace(tail, k, v, i - 1);
      assert tail[..i - 1] == r[1..i];
      assert tail[i..] == r[i + 1..];
      assert [r[0]] + r[1..i] == r[..i];
    }
  }

  /** d.update(...) with the pairs kvs, one after another. */
  function PutAll<V>(r: seq<(string, V)>, kvs: seq<(string, V)>): seq<(string, V)> {
    if kvs == [] then r
    else Put(PutAll(r, kvs[..|kvs| - 1]), kvs[|kvs| - 1].0, kvs[|kvs| - 1].1)
  }

  /** The value the last pair for k in kvs carries. */
  function LastBinding<V>(kvs: seq<(string, V)>, k: string): Option<V> {
    if kvs == [] then None
    else if kvs[|kvs| - 1].0 == k then Some(kvs[|kvs| - 1].1)
    else LastBinding(kvs[..|kvs| - 1], k)
  }

  // ---------------------------------------------------------------------
  // Python 2 text forms

  function DigitChar(d: nat): char
    requires d < 10
  {
    "0123456789"[d]
  }

  function Digits(n: nat): (s: string)
    ensures |s| >= 1
    ensures forall i :: 0 <= i < |s| ==> '0' <= s[i] <= '9'
  {
    if n < 10 then [DigitChar(n)] else Digits(n / 10) + [DigitChar(n % 10)]
  }

  /** str(i) of a Python integer: its decimal digits, with a leading '-' when negative. */
  function IntToString(i: int): (s: string)
    ensures NoBraces(s)
    ensures |s| >= 1 && (s[0] == '-' <==> i < 0)
  {
    if i < 0 then "-" + Digits(-i) else Digits(i)
  }

  /** The class name the default repr shows, module as chart.py imports it. */
  function ClassName(kind: ObjKind): string {
    match kind
    case FormatterObj => "common.Formatter"
    case SeriesOptionsObj => "highchart_types.SeriesOptions"
    case SeriesObj => "highchart_types.Series"
    case OtherObj(name) => name
  }

  /** repr(v). */
  function PyRepr(v: Value): string
    decreases v, 1
  {
    match v
    case Bool(b) => if b then "True" else "False"
    case Str(s) => Quoted(s)
    case Int(i) => IntToString(i)
    case NoneVal => "None"
    case List(items) => "[" + ReprItems(items, |items|) + "]"
    case Dict(es) => "{" + ReprPairs(es, |es|) + "}"
    case Obj(kind, _) => "<" + ClassName(kind) + " object>"
  }

  /** repr() of a str: single quotes around it (escaping is not modelled). */
  function Quoted(s: string): string {
    "'" + s + "'"
  }

  /** The reprs of items[..n], separated by ", ". */
  function ReprItems(items: seq<Value>, n: nat): string
    requires n <= |items|
    decreases List(items), 0, n
  {
    if n == 0 then ""
    else if n == 1 then PyRepr(items[0])
    else ReprItems(items, n - 1) + ", " + PyRepr(items[n - 1])
  }

  /** The "key: value" reprs of es[..n], separated by ", ". */
  function ReprPairs(es: seq<(string, Value)>, n: nat): string
    requires n <= |es|
    decreases Dict(es), 0, n
  {
    if n == 0 then ""
    else
      var pair := Quoted(es[n - 1].0) + ": " + PyRepr(es[n - 1].1);
      if n == 1 then pair else ReprPairs(es, n - 1) + ", " + pair
  }

  /** str(v), which is what "%s" % v produces. */
  function PyStr(v: Value): string {
    if v.Str? then v.s else PyRepr(v)
  }

  // ---------------------------------------------------------------------
  // Values whose strings pair their own braces

  /** Every string, key and class name inside v is itself balanced: a
      callback body such as "function () { return 1; }" qualifies, a lone
      "{" does not. */
  ghost predicate StringsBalanced(v: Value)
    decreases v, 1
  {
    match v
    case Str(s) => Balanced(s)
    case List(items) => forall x | x in items :: StringsBalanced(x)
    case Dict(es) => forall e | e in es :: Balanced(e.0) && StringsBalanced(e.1)
    case Obj(kind, attrs) =>
      Balanced(ClassName(kind)) && forall e | e in attrs :: Balanced(e.0) && StringsBalanced(e.1)
    case _ => true
  }

  ghost predicate RecordStringsBalanced(r: Record) {
    forall e | e in r :: Balanced(e.0) && StringsBalanced(e.1)
  }

  lemma Balanced3(a: string, b: string, c: string)
    requires Balanced(a) && Balanced(b) && Balanced(c)
    ensures Balanced(a + b + c)
  {
    BalancedConcat(a, b);
    BalancedConcat(a + b, c);
  }

  /** A balanced text between two brace-free delimiters stays balanced. */
  lemma WrappedBalanced(open: string, s: string, close: string)
    requires NoBraces(open) && NoBraces(close) && Balanced(s)
    ensures Balanced(open + s + close)
  {
    NoBracesBalanced(open);
    NoBracesBalanced(close);
    Balanced3(open, s, close);
  }

  /** repr() of a value whose strings are balanced nests its braces properly. */
  lemma {:induction false} ReprBalanced(v: Value)
    requires StringsBalanced(v)
    ensures Balanced(PyRepr(v))
    decreases v, 1
  {
    match v
    case Bool(b) =>
      NoBracesBalanced(PyRepr(v));
    case Str(s) =>
      WrappedBalanced("'", s, "'");
    case Int(i) =>
      NoBracesBalanced(PyRepr(v));
    case NoneVal =>
      NoBracesBalanced(PyRepr(v));
    case List(items) =>
      ReprItemsBalanced(items, |items|);
      WrappedBalanced("[", ReprItems(items, |items|), "]");
    case Dict(es) =>
      ReprPairsBalanced(es, |es|);
      BracedBalanced(ReprPairs(es, |es|));
    case Obj(kind, _) =>
      WrappedBalanced("<", ClassName(kind), " object>");
  }

  lemma {:induction false} ReprItemsBalanced(items: seq<Value>, n: nat)
    requires n <= |items|
    requires forall x | x in items :: StringsBalanced(x)
    ensures Balanced(ReprItems(items, n))
    decreases List(items), 0, n
  {
    if n == 0 {
      NoBracesBalanced("");
    } else {
      assert items[n - 1] in items;
      ReprBalanced(items[n - 1]);
      if n > 1 {
        ReprItemsBalanced(items, n - 1);
        NoBracesBalanced(", ");
        Balanced3(ReprItems(items, n - 1), ", ", PyRepr(items[n - 1]));
      }
    }
  }

  lemma {:induction false} ReprPairsBalanced(es: seq<(string, Value)>, n: nat)
    requires n <= |es|
    requires RecordStringsBalanced(es)
    ensures Balanced(ReprPairs(es, n))
    decreases Dict(es), 0, n
  {
    if n > 0 {
      var e := es[n - 1];
      assert e in es;
      ReprBalanced(e.1);
      WrappedBalanced("'", e.0, "'");
      NoBracesBalanced(": ");
      Balanced3(Quoted(e.0), ": ", PyRepr(e.1));
      var pair := Quoted(e.0) + ": " + PyRepr(e.1);
      if n > 1 {
        ReprPairsBalanced(es, n - 1);
        NoBracesBalanced(", ");
        Balanced3(ReprPairs(es, n - 1), ", ", pair);
      }
    } else {
      NoBracesBalanced("");
    }
  }

  lemma StrBalanced(v: Value)
    requires StringsBalanced(v)
    ensures Balanced(PyStr(v))
  {
    if !v.Str? {
      ReprBalanced(v);
    }
  }
}
