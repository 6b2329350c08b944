/** The object-literal serializer of highcharts/chart.py.

    The functions give the text each piece of the source produces, as a
    Result (Err stands for a Python exception).  The methods follow the
    source's loops, appending to an accumulator, and are proved against those
    functions. */
module Serializer {
  import opened Values

  /** Field name to encoding mode, the shape of FORMAT_SPECIAL_CASES. */
  type Policy = map<string, string>

  /** FORMAT_SPECIAL_CASES. */
  const FormatSpecialCases: Policy := map["formatter" := "formatter", "pointStart" := "skip_quotes"]

  /** "\t" * n. */
  function Tabs(n: nat): (t: string)
    ensures |t| == n
    ensures forall i :: 0 <= i < n ==> t[i] == '\t'
  {
    if n == 0 then "" else Tabs(n - 1) + "\t"
  }

  /** One field line: "\t"*depth + "key: text,\n". */
  function Line(depth: nat, key: string, text: string): string {
    Tabs(depth) + key + ": " + text + ",\n"
  }

  /** A nested object: the opening line, the walked fields, the closing line. */
  function Block(key: string, inner: Result<string>): Result<string> {
    var body :- inner;
    Ok("\t" + key + ": {\n" + body + "\t\t},\n")
  }

  /** Two texts produced one after the other; the first exception wins. */
  function Concat(a: Result<string>, b: Result<string>): Result<string> {
    var x :- a;
    var y :- b;
    Ok(x + y)
  }

  /** val.formatter */
  function FormatterOf(val: Value): Result<Value> {
    match val
    case Obj(_, attrs) =>
      (match Lookup(attrs, "formatter")
       case Some(f) => Ok(f)
       case None => Err(AttributeError("formatter")))
    case _ => Err(AttributeError("formatter"))
  }

  predicate CommaTerminated(s: string) {
    |s| >= 2 && s[|s| - 2] == ',' && s[|s| - 1] == '\n'
  }

  /** The text update_template appends for one field. */
  function FieldText(p: Policy, key: string, val: Value, depth: nat): (r: Result<string>)
    ensures r.Ok? ==> CommaTerminated(r.value)
    decreases val, 2
  {
    if key !in p then
      match val
      case Dict(es) => Block(key, EntriesText(p, es, 3))
      case Bool(b) => Ok(Line(depth, key, if b then "true" else "false"))
      case Str(s) => Ok(Line(depth, key, "'" + s + "'"))
      case _ => Ok(Line(depth, key, PyStr(val)))
    else if p[key] == "skip_quotes" then
      Ok(Line(depth, key, PyStr(val)))
    else if key == "formatter" then
      var f :- FormatterOf(val);
      Ok(Line(depth, key, PyStr(f)))
    else
      Err(NotImplementedError)
  }

  /** The field lines of all of es, each at the given depth. */
  function EntriesText(p: Policy, es: Record, depth: nat): Result<string>
    decreases Dict(es), 1
  {
    EntriesPrefix(p, es, |es|, depth)
  }

  /** The field lines of es[..n]; the first exception stops the walk. */
  function EntriesPrefix(p: Policy, es: Record, n: nat, depth: nat): Result<string>
    requires n <= |es|
    decreases Dict(es), 0, n
  {
    if n == 0 then Ok("")
    else
      var pre :- EntriesPrefix(p, es, n - 1, depth);
      assert es[n - 1] in es;
      var line :- FieldText(p, es[n - 1].0, es[n - 1].1, depth);
      Ok(pre + line)
  }

  /** Once the walk of es[..m] has raised, the walk of any longer prefix raises the same. */
  lemma {:induction false} EntriesPrefixErrSticks(p: Policy, es: Record, m: nat, n: nat, depth: nat)
    requires m <= n <= |es|
    requires EntriesPrefix(p, es, m, depth).Err?
    ensures EntriesPrefix(p, es, n, depth) == EntriesPrefix(p, es, m, depth)
    decreases n
  {
    if n > m {
      EntriesPrefixErrSticks(p, es, m, n - 1, depth);
    }
  }

  /** One more step of the walk: the field lines of es[..n+1] are those of es[..n] followed by es[n]'s. */
  lemma EntriesPrefixStep(p: Policy, es: Record, n: nat, depth: nat)
    requires n < |es|
    requires EntriesPrefix(p, es, n, depth).Ok?
    ensures EntriesPrefix(p, es, n + 1, depth)
         == Concat(EntriesPrefix(p, es, n, depth), FieldText(p, es[n].0, es[n].1, depth))
  {
  }

  /** update_template(tmp, key, val, tab_depth). */
  method UpdateTemplate(p: Policy, tmp: string, key: string, val: Value, depth: nat)
    returns (r: Result<string>)
    ensures r == Concat(Ok(tmp), FieldText(p, key, val, depth))
    ensures r.Ok? ==> tmp <= r.value
    decreases val, 1
  {
    if key !in p {
      if val.Dict? {
        r := NestedBlock(p, tmp, key, val.entries);
        return;
      }
      var text: string;
      if val.Bool? {
        text := if val.b then "true" else "false";
      } else if val.Str? {
        text := "'" + val.s + "'";
      } else {
        text := PyStr(val);
      }
      return Ok(tmp + Line(depth, key, text));
    }
    if p[key] == "skip_quotes" {
      return Ok(tmp + Line(depth, key, PyStr(val)));
    } else if key == "formatter" {
      var f := FormatterOf(val);
      if f.Err? {
        return Err(f.error);
      }
      return Ok(tmp + Line(depth, key, PyStr(f.value)));
    } else {
      return Err(NotImplementedError);
    }
  }

  // ---------------------------------------------------------------------
  // series_formatter

  /** data[key] */
  function Get(data: Record, key: string): Result<Value> {
    match Lookup(data, key)
    case Some(v) => Ok(v)
    case None => Err(KeyError(key))
  }

  /** The elements a Python for-loop over v visits. */
  function Iterate(v: Value): Result<seq<Value>> {
    match v
    case List(items) => Ok(items)
    case Str(s) => Ok(seq(|s|, i requires 0 <= i < |s| => Str([s[i]])))
    case Dict(es) => Ok(seq(|es|, i requires 0 <= i < |es| => Str(es[i].0)))
    case _ => Err(TypeError("object is not iterable"))
  }

  /** One series object: "{\n", its attribute lines at depth 2, "\t},". */
  function SeriesBlock(p: Policy, x: Value): Result<string> {
    match x
    case Obj(_, attrs) =>
      var body :- EntriesText(p, attrs, 2);
      Ok("{\n" + body + "\t},")
    case _ => Err(AttributeError("__dict__"))
  }

  /** The blocks of the series objects xs, in list order. */
  function SeriesText(p: Policy, xs: seq<Value>): Result<string> {
    if xs == [] then Ok("")
    else
      var pre :- SeriesText(p, xs[..|xs| - 1]);
      var block :- SeriesBlock(p, xs[|xs| - 1]);
      Ok(pre + block)
  }

  /** series_formatter(data). */
  function SeriesFormatterText(p: Policy, data: Record): Result<string> {
    var v :- Get(data, "data");
    var xs :- Iterate(v);
    SeriesText(p, xs)
  }

  lemma {:induction false} SeriesTextErrSticks(p: Policy, xs: seq<Value>, m: nat)
    requires m <= |xs|
    requires SeriesText(p, xs[..m]).Err?
    ensures SeriesText(p, xs) == SeriesText(p, xs[..m])
    decreases |xs| - m
  {
    if m < |xs| {
      assert xs[..m + 1][..m] == xs[..m];
      SeriesTextErrSticks(p, xs, m + 1);
    } else {
      assert xs[..m] == xs;
    }
  }

  /** The body of series_formatter's loop for one series object. */
  method AppendSeriesBlock(p: Policy, temp: string, x: Value) returns (r: Result<string>)
    ensures r == Concat(Ok(temp), SeriesBlock(p, x))
  {
    if !x.Obj? {
      return Err(AttributeError("__dict__"));
    }
    var acc := AppendEntries(p, temp + "{\n", x.attrs, 2);
    if acc.Err? {
      return acc;
    }
    ghost var body := EntriesText(p, x.attrs, 2).value;
    assert acc.value + "\t}," == temp + ("{\n" + body + "\t},");
    return Ok(acc.value + "\t},");
  }

  method SeriesFormatter(p: Policy, data: Record) returns (r: Result<string>)
    ensures r == SeriesFormatterText(p, data)
  {
    var v := Get(data, "data");
    if v.Err? {
      return Err(v.error);
    }
    var elements := Iterate(v.value);
    if elements.Err? {
      return Err(elements.error);
    }
    var xs := elements.value;
    var temp := "";
    var i := 0;
    while i < |xs|
      invariant 0 <= i <= |xs|
      invariant SeriesText(p, xs[..i]) == Ok(temp)
    {
      assert xs[..i + 1][..i] == xs[..i];
      var next := AppendSeriesBlock(p, temp, xs[i]);
      if next.Err? {
        SeriesTextErrSticks(p, xs, i + 1);
        return Err(next.error);
      }
      temp := next.value;
      i := i + 1;
    }
    assert xs[..|xs|] == xs;
    return Ok(temp);
  }

  // ---------------------------------------------------------------------
  // color_formatter and chart_formatter

  /** color_formatter(data): str(data['colors']); KeyError without it. */
  function ColorText(data: Record): (r: Result<string>)
    ensures r.Ok? <==> "colors" in Keys(data)
    ensures r.Err? ==> r.error == KeyError("colors")
    ensures r.Ok? ==> exists i :: 0 <= i < |data| && data[i].0 == "colors" && r.value == PyStr(data[i].1)
  {
    var colors :- Get(data, "colors");
    Ok(PyStr(colors))
  }

  /** What chart_formatter's generic walk appends for one top-level field: a
      dict or a SeriesOptions object becomes a nested block, anything else goes
      through update_template at depth 1. */
  function TopFieldText(p: Policy, key: string, val: Value): Result<string> {
    match val
    case Dict(es) => Block(key, EntriesText(p, es, 3))
    case Obj(SeriesOptionsObj, attrs) => Block(key, EntriesText(p, attrs, 3))
    case _ => FieldText(p, key, val, 1)
  }

  /** The generic walk over the fields of data, in order. */
  function GenericText(p: Policy, data: Record): Result<string> {
    if data == [] then Ok("")
    else
      var pre :- GenericText(p, data[..|data| - 1]);
      var field :- TopFieldText(p, data[|data| - 1].0, data[|data| - 1].1);
      Ok(pre + field)
  }

  /** chart_formatter(option_type, data). */
  function CategoryText(p: Policy, optionType: string, data: Record): Result<string> {
    if data == [] then Ok("")
    else if optionType == "colors" then ColorText(data)
    else if optionType == "series" then SeriesFormatterText(p, data)
    else GenericText(p, data)
  }

  lemma {:induction false} GenericTextErrSticks(p: Policy, data: Record, m: nat)
    requires m <= |data|
    requires GenericText(p, data[..m]).Err?
    ensures GenericText(p, data) == GenericText(p, data[..m])
    decreases |data| - m
  {
    if m < |data| {
      assert data[..m + 1][..m] == data[..m];
      GenericTextErrSticks(p, data, m + 1);
    } else {
      assert data[..m] == data;
    }
  }

  /** The update_template loop over the fields of es, appending to acc. */
  method AppendEntries(p: Policy, acc: string, es: Record, depth: nat) returns (r: Result<string>)
    ensures r == Concat(Ok(acc), EntriesText(p, es, depth))
    decreases Dict(es), 0, 0
  {
    var text := acc;
    var j := 0;
    assert acc + "" == acc;
    while j < |es|
      invariant 0 <= j <= |es|
      invariant Concat(Ok(acc), EntriesPrefix(p, es, j, depth)) == Ok(text)
    {
      assert es[j] in es;
      AppendStep(p, acc, es, j, depth, text);
      var next := UpdateTemplate(p, text, es[j].0, es[j].1, depth);
      if next.Err? {
        EntriesPrefixErrSticks(p, es, j + 1, |es|, depth);
        return next;
      }
      text := next.value;
      j := j + 1;
    }
    return Ok(text);
  }

  /** One pass of the loop: appending es[j]'s line to the text so far is
      appending the walk of es[..j+1] to acc. */
  lemma AppendStep(p: Policy, acc: string, es: Record, j: nat, depth: nat, text: string)
    requires j < |es|
    requires Concat(Ok(acc), EntriesPrefix(p, es, j, depth)) == Ok(text)
    ensures Concat(Ok(acc), EntriesPrefix(p, es, j + 1, depth)) == Concat(Ok(text), FieldText(p, es[j].0, es[j].1, depth))
  {
    EntriesPrefixStep(p, es, j, depth);
    var prefix := EntriesPrefix(p, es, j, depth).value;
    var f := FieldText(p, es[j].0, es[j].1, depth);
    if f.Ok? {
      assert acc + (prefix + f.value) == text + f.value;
    }
  }

  /** The loop chart_formatter runs over a nested dict or SeriesOptions object. */
  method NestedBlock(p: Policy, tmp: string, key: string, es: Record) returns (r: Result<string>)
    ensures r == Concat(Ok(tmp), Block(key, EntriesText(p, es, 3)))
    decreases Dict(es), 0, 1
  {
    var acc := AppendEntries(p, tmp + "\t" + key + ": {\n", es, 3);
    if acc.Err? {
      return acc;
    }
    ghost var body := EntriesText(p, es, 3).value;
    assert acc.value + "\t\t},\n" == tmp + ("\t" + key + ": {\n" + body + "\t\t},\n");
    return Ok(acc.value + "\t\t},\n");
  }

  /** What one pass of chart_formatter's generic loop appends to tmp. */
  method AppendTopField(p: Policy, tmp: string, key: string, val: Value) returns (r: Result<string>)
    ensures r == Concat(Ok(tmp), TopFieldText(p, key, val))
  {
    if val.Dict? {
      r := NestedBlock(p, tmp, key, val.entries);
    } else if val.Obj? && val.kind == SeriesOptionsObj {
      r := NestedBlock(p, tmp, key, val.attrs);
    } else {
      r := UpdateTemplate(p, tmp, key, val, 1);
    }
  }

  method ChartFormatter(p: Policy, optionType: string, data: Record) returns (r: Result<string>)
    ensures r == CategoryText(p, optionType, data)
  {
    var tmp := "";
    if data == [] {
      return Ok(tmp);
    }
    if optionType == "colors" {
      return ColorText(data);
    } else if optionType == "series" {
      r := SeriesFormatter(p, data);
      return;
    }
    var i := 0;
    while i < |data|
      invariant 0 <= i <= |data|
      invariant GenericText(p, data[..i]) == Ok(tmp)
    {
      GenericTextStep(p, data, i, tmp);
      var next := AppendTopField(p, tmp, data[i].0, data[i].1);
      if next.Err? {
        GenericTextErrSticks(p, data, i + 1);
        return next;
      }
      tmp := next.value;
      i := i + 1;
    }
    assert data[..|data|] == data;
    return Ok(tmp);
  }

  /** One pass of chart_formatter's generic loop. */
  lemma GenericTextStep(p: Policy, data: Record, i: nat, tmp: string)
    requires i < |data|
    requires GenericText(p, data[..i]) == Ok(tmp)
    ensures GenericText(p, data[..i + 1]) == Concat(Ok(tmp), TopFieldText(p, data[i].0, data[i].1))
  {
    assert data[..i + 1][..i] == data[..i];
  }
}
