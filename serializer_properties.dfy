/** What the serializer of highcharts/chart.py guarantees: ordering and
    append-only accumulation, which encoding a field gets, when the walk
    raises, brace nesting, and when a category is omitted. */
module SerializerProperties {
  import opened Braces
  import opened Values
  import opened Serializer

  // ---------------------------------------------------------------------
  // Order and accumulation

  /** The walk of es[..n] reads only es[..n]. */
  lemma {:induction false} EntriesPrefixLocal(p: Policy, es1: Record, es2: Record, n: nat, depth: nat)
    requires n <= |es1| && n <= |es2| && es1[..n] == es2[..n]
    ensures EntriesPrefix(p, es1, n, depth) == EntriesPrefix(p, es2, n, depth)
  {
    if n > 0 {
      assert es1[..n - 1] == es2[..n - 1];
      assert es1[n - 1] == es1[..n][n - 1] == es2[n - 1];
      EntriesPrefixLocal(p, es1, es2, n - 1, depth);
    }
  }

  lemma ConcatAssoc(a: Result<string>, b: Result<string>, c: Result<string>)
    ensures Concat(Concat(a, b), c) == Concat(a, Concat(b, c))
  {
    if a.Ok? && b.Ok? && c.Ok? {
      assert a.value + b.value + c.value == a.value + (b.value + c.value);
    }
  }

  lemma ConcatEmpty(a: Result<string>)
    ensures Concat(a, Ok("")) == a
  {
    if a.Ok? {
      assert a.value + "" == a.value;
    }
  }

  lemma EntriesPrefixUnfold(p: Policy, es: Record, n: nat, depth: nat)
    requires 0 < n <= |es|
    ensures EntriesPrefix(p, es, n, depth)
         == Concat(EntriesPrefix(p, es, n - 1, depth), FieldText(p, es[n - 1].0, es[n - 1].1, depth))
  {
  }

  /** Walking es[..m] and then es[m..n] is walking es[..n]. */
  lemma {:induction false} EntriesPrefixSplit(p: Policy, es: Record, m: nat, n: nat, depth: nat)
    requires m <= n <= |es|
    ensures EntriesPrefix(p, es, n, depth)
         == Concat(EntriesPrefix(p, es, m, depth), EntriesText(p, es[m..n], depth))
    decreases n
  {
    if n == m {
      assert es[m..n] == [];
      ConcatEmpty(EntriesPrefix(p, es, m, depth));
    } else {
      EntriesPrefixSplit(p, es, m, n - 1, depth);
      var f := FieldText(p, es[n - 1].0, es[n - 1].1, depth);
      EntriesPrefixUnfold(p, es, n, depth);
      SliceStep(p, es, m, n, depth);
      ConcatAssoc(EntriesPrefix(p, es, m, depth), EntriesText(p, es[m..n - 1], depth), f);
    }
  }

  /** The walk of es[m..n] is the walk of es[m..n-1] followed by es[n-1]'s line. */
  lemma SliceStep(p: Policy, es: Record, m: nat, n: nat, depth: nat)
    requires m < n <= |es|
    ensures EntriesText(p, es[m..n], depth)
         == Concat(EntriesText(p, es[m..n - 1], depth), FieldText(p, es[n - 1].0, es[n - 1].1, depth))
  {
    var tail := es[m..n];
    assert tail[..|tail| - 1] == es[m..n - 1][..|tail| - 1];
    EntriesPrefixLocal(p, tail, es[m..n - 1], |tail| - 1, depth);
    assert tail[|tail| - 1] == es[n - 1];
    EntriesPrefixUnfold(p, tail, |tail|, depth);
  }

  /** Fields are emitted in record order: the text of a + b is a's text followed by b's. */
  lemma EntriesTextConcat(p: Policy, a: Record, b: Record, depth: nat)
    ensures EntriesText(p, a + b, depth) == Concat(EntriesText(p, a, depth), EntriesText(p, b, depth))
  {
    var es := a + b;
    EntriesPrefixSplit(p, es, |a|, |es|, depth);
    assert es[..|a|] == a && es[|a|..|es|] == b;
    EntriesPrefixLocal(p, es, a, |a|, depth);
  }

  /** Text already emitted is never altered: each walked prefix extends the previous one. */
  lemma {:induction false} EntriesPrefixGrows(p: Policy, es: Record, m: nat, n: nat, depth: nat)
    requires m <= n <= |es|
    requires EntriesPrefix(p, es, n, depth).Ok?
    ensures EntriesPrefix(p, es, m, depth).Ok?
    ensures EntriesPrefix(p, es, m, depth).value <= EntriesPrefix(p, es, n, depth).value
    decreases n
  {
    if m < n {
      EntriesPrefixGrows(p, es, m, n - 1, depth);
    }
  }

  /** Series objects are emitted in list order. */
  lemma {:induction false} SeriesTextConcat(p: Policy, xs: seq<Value>, ys: seq<Value>)
    ensures SeriesText(p, xs + ys) == Concat(SeriesText(p, xs), SeriesText(p, ys))
    decreases |ys|
  {
    if ys == [] {
      assert xs + ys == xs;
      match SeriesText(p, xs)
      case Ok(t) => assert t + "" == t;
      case Err(_) =>
    } else {
      var ys' := ys[..|ys| - 1];
      assert (xs + ys)[..|xs + ys| - 1] == xs + ys';
      assert (xs + ys)[|xs + ys| - 1] == ys[|ys| - 1];
      SeriesTextConcat(p, xs, ys');
      match SeriesText(p, xs)
      case Err(_) =>
      case Ok(a) =>
        match SeriesText(p, ys')
        case Err(_) =>
        case Ok(b) =>
          match SeriesBlock(p, ys[|ys| - 1])
          case Err(_) =>
          case Ok(c) => assert a + b + c == a + (b + c);
    }
  }

  /** Each series object becomes one "{ ... }," block of its attribute lines at depth 2. */
  lemma SeriesTextSingle(p: Policy, x: Value)
    ensures SeriesText(p, [x]) == SeriesBlock(p, x)
    ensures x.Obj? && EntriesText(p, x.attrs, 2).Ok? ==>
      SeriesText(p, [x]) == Ok("{\n" + EntriesText(p, x.attrs, 2).value + "\t},")
    ensures !x.Obj? ==> SeriesText(p, [x]) == Err(AttributeError("__dict__"))
  {
    assert [x][..0] == [];
    match SeriesBlock(p, x)
    case Ok(t) => assert "" + t == t;
    case Err(_) =>
  }

  /** Top-level fields of a generic category are emitted in record order. */
  lemma {:induction false} GenericTextConcat(p: Policy, a: Record, b: Record)
    ensures GenericText(p, a + b) == Concat(GenericText(p, a), GenericText(p, b))
    decreases |b|
  {
    if b == [] {
      assert a + b == a;
      match GenericText(p, a)
      case Ok(t) => assert t + "" == t;
      case Err(_) =>
    } else {
      var b' := b[..|b| - 1];
      assert (a + b)[..|a + b| - 1] == a + b';
      assert (a + b)[|a + b| - 1] == b[|b| - 1];
      GenericTextConcat(p, a, b');
      match GenericText(p, a)
      case Err(_) =>
      case Ok(x) =>
        match GenericText(p, b')
        case Err(_) =>
        case Ok(y) =>
          match TopFieldText(p, b[|b| - 1].0, b[|b| - 1].1)
          case Err(_) =>
          case Ok(z) => assert x + y + z == x + (y + z);
    }
  }

  // ---------------------------------------------------------------------
  // Which encoding a field gets

  /** A field in the policy with mode skip_quotes is emitted with str() of its
      value and no quotes, whatever the value's type: a string stays unquoted. */
  lemma SkipQuotesWins(p: Policy, key: string, val: Value, depth: nat)
    requires key in p && p[key] == "skip_quotes"
    ensures FieldText(p, key, val, depth) == Ok(Tabs(depth) + key + ": " + PyStr(val) + ",\n")
    ensures val.Str? ==> FieldText(p, key, val, depth) == Ok(Tabs(depth) + key + ": " + val.s + ",\n")
  {
  }

  /** Under FORMAT_SPECIAL_CASES, pointStart is emitted unquoted and formatter
      emits str(val.formatter), while any other key holding the same string is quoted. */
  lemma SpecialCasesOfFormatSpecialCases(key: string, s: string, val: Value, depth: nat)
    ensures FieldText(FormatSpecialCases, "pointStart", Str(s), depth)
         == Ok(Tabs(depth) + "pointStart: " + s + ",\n")
    ensures FieldText(FormatSpecialCases, "formatter", val, depth)
         == if val.Obj? && Lookup(val.attrs, "formatter").Some?
            then Ok(Tabs(depth) + "formatter: " + PyStr(Lookup(val.attrs, "formatter").value) + ",\n")
            else Err(AttributeError("formatter"))
    ensures key != "pointStart" && key != "formatter" ==>
      FieldText(FormatSpecialCases, key, Str(s), depth) == Ok(Tabs(depth) + key + ": '" + s + "',\n")
  {
    assert "pointStart" in FormatSpecialCases && FormatSpecialCases["pointStart"] == "skip_quotes";
    assert "formatter" in FormatSpecialCases && FormatSpecialCases["formatter"] != "skip_quotes";
    assert Tabs(depth) + "pointStart" + ": " == Tabs(depth) + "pointStart: ";
    assert Tabs(depth) + "formatter" + ": " == Tabs(depth) + "formatter: ";
    if key != "pointStart" && key != "formatter" {
      assert key !in FormatSpecialCases;
      assert Tabs(depth) + key + ": '" + s + "',\n" == Line(depth, key, "'" + s + "'");
    }
  }

  /** A field outside the policy: booleans become exactly true/false, strings
      are wrapped in single quotes with no escaping, integers are bare digits. */
  lemma DefaultScalarEncoding(p: Policy, key: string, depth: nat, b: bool, s: string, i: int)
    requires key !in p
    ensures FieldText(p, key, Bool(b), depth)
         == Ok(Tabs(depth) + key + ": " + (if b then "true" else "false") + ",\n")
    ensures FieldText(p, key, Str(s), depth) == Ok(Tabs(depth) + key + ": '" + s + "',\n")
    ensures FieldText(p, key, Int(i), depth) == Ok(Tabs(depth) + key + ": " + IntToString(i) + ",\n")
  {
    assert Tabs(depth) + key + ": '" + s + "',\n" == Line(depth, key, "'" + s + "'");
  }

  /** A dict outside the policy gives one opening line, its entries at depth 3
      and one closing line, whatever the depth; an empty dict still gives both lines. */
  lemma DictBlockShape(p: Policy, key: string, es: Record, depth: nat)
    requires key !in p
    ensures EntriesText(p, es, 3).Ok? <==> FieldText(p, key, Dict(es), depth).Ok?
    ensures EntriesText(p, es, 3).Ok? ==>
      FieldText(p, key, Dict(es), depth).value
        == "\t" + key + ": {\n" + EntriesText(p, es, 3).value + "\t\t},\n"
    ensures FieldText(p, key, Dict([]), depth) == Ok("\t" + key + ": {\n\t\t},\n")
  {
    assert EntriesText(p, [], 3) == Ok("");
    assert "\t" + key + ": {\n" + "" + "\t\t},\n" == "\t" + key + ": {\n\t\t},\n";
  }

  /** In a generic category a top-level dict is emitted as a block before the
      policy is consulted, so even a special key holding a dict becomes a block. */
  lemma CategoryDictBeforePolicy(p: Policy, optionType: string, key: string, es: Record)
    requires optionType != "colors" && optionType != "series"
    ensures CategoryText(p, optionType, [(key, Dict(es))]) == Block(key, EntriesText(p, es, 3))
  {
    var data := [(key, Dict(es))];
    assert data[..0] == [];
    assert GenericText(p, data[..0]) == Ok("");
    assert TopFieldText(p, key, Dict(es)) == Block(key, EntriesText(p, es, 3));
    match Block(key, EntriesText(p, es, 3))
    case Ok(t) => assert "" + t == t;
    case Err(_) =>
  }

  // ---------------------------------------------------------------------
  // When the walk raises

  /** Every "formatter" key the walk reaches holds an object with a formatter attribute. */
  ghost predicate FormattersResolve(key: string, val: Value)
    decreases val, 1
  {
    if key == "formatter" then FormatterOf(val).Ok?
    else if key == "pointStart" then true
    else match val
      case Dict(es) => EntriesResolve(es, |es|)
      case _ => true
  }

  /** Every field of es[..n] passes FormattersResolve. */
  ghost predicate EntriesResolve(es: Record, n: nat)
    requires n <= |es|
    decreases Dict(es), 0, n
  {
    if n == 0 then true
    else
      assert es[n - 1] in es;
      EntriesResolve(es, n - 1) && FormattersResolve(es[n - 1].0, es[n - 1].1)
  }

  /** Under FORMAT_SPECIAL_CASES update_template succeeds exactly when every
      formatter it reaches resolves; otherwise it raises AttributeError, and its
      NotImplementedError branch is never taken. */
  lemma FieldTextRaisesOnlyOnFormatter(key: string, val: Value, depth: nat)
    ensures FieldText(FormatSpecialCases, key, val, depth).Ok? <==> FormattersResolve(key, val)
    ensures FieldText(FormatSpecialCases, key, val, depth).Err? ==>
      FieldText(FormatSpecialCases, key, val, depth).error == AttributeError("formatter")
  {
    FieldTextOkIff(key, val, depth);
    FieldTextErrIsFormatter(key, val, depth);
  }

  /** The same for the walk over the fields of a dict. */
  lemma EntriesRaiseOnlyOnFormatter(es: Record, n: nat, depth: nat)
    requires n <= |es|
    ensures EntriesPrefix(FormatSpecialCases, es, n, depth).Ok? <==> EntriesResolve(es, n)
    ensures EntriesPrefix(FormatSpecialCases, es, n, depth).Err? ==>
      EntriesPrefix(FormatSpecialCases, es, n, depth).error == AttributeError("formatter")
  {
    EntriesOkIff(es, n, depth);
    EntriesErrIsFormatter(es, n, depth);
  }

  lemma {:induction false} FieldTextOkIff(key: string, val: Value, depth: nat)
    ensures FieldText(FormatSpecialCases, key, val, depth).Ok? <==> FormattersResolve(key, val)
    decreases val, 2
  {
    if key != "formatter" && key != "pointStart" && val.Dict? {
      EntriesOkIff(val.entries, |val.entries|, 3);
    }
  }

  lemma {:induction false} EntriesOkIff(es: Record, n: nat, depth: nat)
    requires n <= |es|
    ensures EntriesPrefix(FormatSpecialCases, es, n, depth).Ok? <==> EntriesResolve(es, n)
    decreases Dict(es), 0, n
  {
    if n > 0 {
      EntriesOkIff(es, n - 1, depth);
      assert es[n - 1] in es;
      FieldTextOkIff(es[n - 1].0, es[n - 1].1, depth);
      EntriesPrefixStatus(FormatSpecialCases, es, n, depth);
    }
  }

  lemma {:induction false} FieldTextErrIsFormatter(key: string, val: Value, depth: nat)
    ensures FieldText(FormatSpecialCases, key, val, depth).Err? ==>
      FieldText(FormatSpecialCases, key, val, depth).error == AttributeError("formatter")
    decreases val, 2
  {
    if key != "formatter" && key != "pointStart" && val.Dict? {
      EntriesErrIsFormatter(val.entries, |val.entries|, 3);
    }
  }

  lemma {:induction false} EntriesErrIsFormatter(es: Record, n: nat, depth: nat)
    requires n <= |es|
    ensures EntriesPrefix(FormatSpecialCases, es, n, depth).Err? ==>
      EntriesPrefix(FormatSpecialCases, es, n, depth).error == AttributeError("formatter")
    decreases Dict(es), 0, n
  {
    if n > 0 {
      EntriesErrIsFormatter(es, n - 1, depth);
      assert es[n - 1] in es;
      FieldTextErrIsFormatter(es[n - 1].0, es[n - 1].1, depth);
      EntriesPrefixStatus(FormatSpecialCases, es, n, depth);
    }
  }

  /** The walk of es[..n] succeeds when the walk of es[..n-1] and the last
      field both do, and otherwise raises the first of their exceptions. */
  lemma EntriesPrefixStatus(p: Policy, es: Record, n: nat, depth: nat)
    requires 0 < n <= |es|
    ensures EntriesPrefix(p, es, n, depth).Ok?
        <==> EntriesPrefix(p, es, n - 1, depth).Ok? && FieldText(p, es[n - 1].0, es[n - 1].1, depth).Ok?
    ensures EntriesPrefix(p, es, n, depth).Err? ==>
      EntriesPrefix(p, es, n, depth).error
        == if EntriesPrefix(p, es, n - 1, depth).Err? then EntriesPrefix(p, es, n - 1, depth).error
           else FieldText(p, es[n - 1].0, es[n - 1].1, depth).error
  {
  }

  // ---------------------------------------------------------------------
  // Brace nesting

  lemma LineBalanced(depth: nat, key: string, text: string)
    requires Balanced(key) && Balanced(text)
    ensures Balanced(Line(depth, key, text))
  {
    NoBracesBalanced(Tabs(depth));
    NoBracesBalanced(": ");
    Balanced3(Tabs(depth), key, ": ");
    var head := Tabs(depth) + key + ": ";
    NoBracesBalanced(",\n");
    Balanced3(head, text, ",\n");
  }

  lemma BlockBalanced(key: string, body: string)
    requires Balanced(key) && Balanced(body)
    ensures Balanced(Block(key, Ok(body)).value)
  {
    var mid := "\n" + body + "\t\t";
    NoBracesBalanced("\n");
    NoBracesBalanced("\t\t");
    Balanced3("\n", body, "\t\t");
    NoBracesBalanced("\t");
    NoBracesBalanced(": ");
    Balanced3("\t", key, ": ");
    NoBracesBalanced(",\n");
    BalancedWrap("\t" + key + ": ", mid, ",\n");
    assert Block(key, Ok(body)).value == ("\t" + key + ": ") + "{" + mid + "}" + ",\n";
  }

  /** Every dict the walk emits opens and closes its brace, so a field whose
      record yields text whose braces nest properly. */
  lemma {:induction false} FieldTextBalanced(p: Policy, key: string, val: Value, depth: nat)
    requires Balanced(key) && StringsBalanced(val)
    ensures FieldText(p, key, val, depth).Ok? ==> Balanced(FieldText(p, key, val, depth).value)
    decreases val, 2
  {
    var r := FieldText(p, key, val, depth);
    if r.Ok? {
      if key !in p {
        match val
        case Dict(es) =>
          EntriesPrefixBalanced(p, es, |es|, 3);
          BlockBalanced(key, EntriesText(p, es, 3).value);
        case Bool(b) =>
          NoBracesBalanced(if b then "true" else "false");
          LineBalanced(depth, key, if b then "true" else "false");
        case Str(s) =>
          WrappedBalanced("'", s, "'");
          LineBalanced(depth, key, "'" + s + "'");
        case _ =>
          StrBalanced(val);
          LineBalanced(depth, key, PyStr(val));
      } else if p[key] == "skip_quotes" {
        StrBalanced(val);
        LineBalanced(depth, key, PyStr(val));
      } else if key == "formatter" {
        var f := FormatterOf(val).value;
        var i :| 0 <= i < |val.attrs| && val.attrs[i] == ("formatter", f);
        assert val.attrs[i] in val.attrs;
        StrBalanced(f);
        LineBalanced(depth, key, PyStr(f));
      }
    }
  }

  lemma {:induction false} EntriesPrefixBalanced(p: Policy, es: Record, n: nat, depth: nat)
    requires n <= |es|
    requires RecordStringsBalanced(es)
    ensures EntriesPrefix(p, es, n, depth).Ok? ==> Balanced(EntriesPrefix(p, es, n, depth).value)
    decreases Dict(es), 0, n
  {
    if n == 0 {
      NoBracesBalanced("");
    } else if EntriesPrefix(p, es, n, depth).Ok? {
      assert EntriesPrefix(p, es, n - 1, depth).Ok?;
      EntriesPrefixStep(p, es, n - 1, depth);
      EntriesPrefixBalanced(p, es, n - 1, depth);
      assert es[n - 1] in es;
      FieldTextBalanced(p, es[n - 1].0, es[n - 1].1, depth);
      BalancedConcat(EntriesPrefix(p, es, n - 1, depth).value,
                     FieldText(p, es[n - 1].0, es[n - 1].1, depth).value);
    }
  }

  /** The braces a series block adds around its body pair up. */
  lemma SeriesWrapBalanced(body: string)
    requires Balanced(body)
    ensures Balanced("{\n" + body + "\t},")
  {
    var mid := "\n" + body + "\t";
    NoBracesBalanced("\n");
    NoBracesBalanced("\t");
    Balanced3("\n", body, "\t");
    NoBracesBalanced("");
    NoBracesBalanced(",");
    BalancedWrap("", mid, ",");
    assert "{\n" + body + "\t}," == "" + "{" + mid + "}" + ",";
  }

  lemma SeriesBlockBalanced(p: Policy, x: Value)
    requires x.Obj? ==> StringsBalanced(x)
    ensures SeriesBlock(p, x).Ok? ==> Balanced(SeriesBlock(p, x).value)
  {
    if x.Obj? && EntriesText(p, x.attrs, 2).Ok? {
      assert RecordStringsBalanced(x.attrs);
      EntriesPrefixBalanced(p, x.attrs, |x.attrs|, 2);
      SeriesWrapBalanced(EntriesText(p, x.attrs, 2).value);
    }
  }

  lemma {:induction false} SeriesTextBalanced(p: Policy, xs: seq<Value>)
    requires forall x | x in xs :: x.Obj? ==> StringsBalanced(x)
    ensures SeriesText(p, xs).Ok? ==> Balanced(SeriesText(p, xs).value)
    decreases |xs|
  {
    if xs == [] {
      NoBracesBalanced("");
    } else if SeriesText(p, xs).Ok? {
      var pre := xs[..|xs| - 1];
      var x := xs[|xs| - 1];
      assert forall y | y in pre :: y in xs;
      SeriesTextBalanced(p, pre);
      assert x in xs;
      SeriesBlockBalanced(p, x);
      BalancedConcat(SeriesText(p, pre).value, SeriesBlock(p, x).value);
    }
  }

  lemma {:induction false} GenericTextBalanced(p: Policy, data: Record)
    requires RecordStringsBalanced(data)
    ensures GenericText(p, data).Ok? ==> Balanced(GenericText(p, data).value)
    decreases |data|
  {
    if data == [] {
      NoBracesBalanced("");
    } else if GenericText(p, data).Ok? {
      var pre := data[..|data| - 1];
      var e := data[|data| - 1];
      assert forall y | y in pre :: y in data;
      GenericTextBalanced(p, pre);
      assert e in data;
      match e.1 {
        case Dict(es) =>
          EntriesPrefixBalanced(p, es, |es|, 3);
          BlockBalanced(e.0, EntriesText(p, es, 3).value);
        case Obj(kind, attrs) =>
          if kind == SeriesOptionsObj {
            EntriesPrefixBalanced(p, attrs, |attrs|, 3);
            BlockBalanced(e.0, EntriesText(p, attrs, 3).value);
          } else {
            FieldTextBalanced(p, e.0, e.1, 1);
          }
        case _ =>
          FieldTextBalanced(p, e.0, e.1, 1);
      }
      BalancedConcat(GenericText(p, pre).value, TopFieldText(p, e.0, e.1).value);
    }
  }

  /** chart_formatter's output for a record whose strings, keys and class
      names are balanced nests its braces properly. */
  lemma CategoryTextBalanced(p: Policy, optionType: string, data: Record)
    requires RecordStringsBalanced(data)
    ensures CategoryText(p, optionType, data).Ok? ==> Balanced(CategoryText(p, optionType, data).value)
  {
    if data == [] {
      NoBracesBalanced("");
    } else if optionType == "colors" {
      ColorTextBalanced(data);
    } else if optionType == "series" {
      SeriesFormatterBalanced(p, data);
    } else {
      GenericTextBalanced(p, data);
    }
  }

  lemma ColorTextBalanced(data: Record)
    requires RecordStringsBalanced(data)
    ensures ColorText(data).Ok? ==> Balanced(ColorText(data).value)
  {
    if Lookup(data, "colors").Some? {
      var i :| 0 <= i < |data| && data[i] == ("colors", Lookup(data, "colors").value);
      assert data[i] in data;
      StrBalanced(data[i].1);
    }
  }

  lemma SeriesFormatterBalanced(p: Policy, data: Record)
    requires RecordStringsBalanced(data)
    ensures SeriesFormatterText(p, data).Ok? ==> Balanced(SeriesFormatterText(p, data).value)
  {
    if Lookup(data, "data").Some? {
      var i :| 0 <= i < |data| && data[i] == ("data", Lookup(data, "data").value);
      assert data[i] in data;
      var v := data[i].1;
      match v
      case List(items) =>
        SeriesTextBalanced(p, items);
      case Str(s) =>
        var xs := Iterate(v).value;
        forall x | x in xs ensures !x.Obj? {
          var j :| 0 <= j < |xs| && xs[j] == x;
        }
        SeriesTextBalanced(p, xs);
      case Dict(es) =>
        var xs := Iterate(v).value;
        forall x | x in xs ensures !x.Obj? {
          var j :| 0 <= j < |xs| && xs[j] == x;
        }
        SeriesTextBalanced(p, xs);
      case _ =>
    }
  }

  /** Strings are quoted without escaping, so a string whose braces do not
      pair breaks the pairing: the requirement above cannot be dropped. */
  lemma UnescapedBraceUnbalanced()
    ensures FieldText(FormatSpecialCases, "text", Str("{"), 1).Ok?
    ensures !Balanced(FieldText(FormatSpecialCases, "text", Str("{"), 1).value)
  {
    DefaultScalarEncoding(FormatSpecialCases, "text", 1, false, "{", 0);
    var a := Tabs(1) + "text" + ": '";
    var c := "',\n";
    assert NoBraces(a) && NoBraces(c);
    NoBracesNet(a);
    NoBracesNet(c);
    assert "{"[..0] == [];
    assert Net("{") == 1;
    NetConcat(a, "{");
    NetConcat(a + "{", c);
  }

  /** A formatter whose callback body pairs its braces serializes to balanced
      text: the requirement is on the strings, not a ban on braces. */
  lemma FormatterFieldBalanced(body: string, depth: nat)
    requires Balanced(body)
    ensures FieldText(FormatSpecialCases, "formatter", Obj(FormatterObj, [("formatter", Str(body))]), depth).Ok?
    ensures Balanced(FieldText(FormatSpecialCases, "formatter",
                               Obj(FormatterObj, [("formatter", Str(body))]), depth).value)
  {
    var val := Obj(FormatterObj, [("formatter", Str(body))]);
    NoBracesBalanced("formatter");
    NoBracesBalanced(ClassName(FormatterObj));
    assert StringsBalanced(val);
    SpecialCasesOfFormatSpecialCases("formatter", "", val, depth);
    FieldTextBalanced(FormatSpecialCases, "formatter", val, depth);
  }

  /** A typical callback body, braces included, is balanced. */
  lemma CallbackBodyBalanced()
    ensures Balanced("function () { return this.y; }")
  {
    var pre := "function () ";
    var mid := " return this.y; ";
    assert NoBraces(pre);
    assert NoBraces(mid);
    NoBracesBalanced(pre);
    NoBracesBalanced(mid);
    NoBracesBalanced("");
    BalancedWrap(pre, mid, "");
    assert "function () { return this.y; }" == pre + "{" + mid + "}" + "";
  }

  // ---------------------------------------------------------------------
  // Omission of empty categories

  /** The emptiness check runs before the colors/series dispatch: an empty
      record gives "" in every category. */
  lemma EmptyCategoryOmitted(p: Policy, optionType: string)
    ensures CategoryText(p, optionType, []) == Ok("")
  {
  }

  lemma TopFieldCommaTerminated(p: Policy, key: string, val: Value)
    ensures TopFieldText(p, key, val).Ok? ==> CommaTerminated(TopFieldText(p, key, val).value)
  {
    match val
    case Dict(es) =>
      if EntriesText(p, es, 3).Ok? {
        var t := Block(key, EntriesText(p, es, 3)).value;
        assert t[|t| - 2..] == ",\n";
      }
    case Obj(kind, attrs) =>
      if kind == SeriesOptionsObj && EntriesText(p, attrs, 3).Ok? {
        var t := Block(key, EntriesText(p, attrs, 3)).value;
        assert t[|t| - 2..] == ",\n";
      }
    case _ =>
  }

  /** A generic category is omitted (its text is "") exactly when its record is empty. */
  lemma GenericCategoryEmptyIff(p: Policy, optionType: string, data: Record)
    requires optionType != "colors" && optionType != "series"
    requires CategoryText(p, optionType, data).Ok?
    ensures CategoryText(p, optionType, data).value == "" <==> data == []
  {
    if data != [] {
      var e := data[|data| - 1];
      TopFieldCommaTerminated(p, e.0, e.1);
      var pre := GenericText(p, data[..|data| - 1]).value;
      var field := TopFieldText(p, e.0, e.1).value;
      assert |CategoryText(p, optionType, data).value| == |pre| + |field| >= 2;
    }
  }

  /** The series category checks only that its record is non-empty: a data
      list with no series yields "" even so. */
  lemma SeriesWithEmptyDataList(p: Policy)
    ensures CategoryText(p, "series", [("data", List([]))]) == Ok("")
  {
  }

  // ---------------------------------------------------------------------
  // Worked examples

  /** A generic category holding one plain field is that field's update_template line at depth 1. */
  lemma SingleFieldCategory(p: Policy, optionType: string, key: string, val: Value)
    requires optionType != "colors" && optionType != "series"
    requires !val.Dict? && !(val.Obj? && val.kind == SeriesOptionsObj)
    ensures CategoryText(p, optionType, [(key, val)]) == FieldText(p, key, val, 1)
  {
    var data := [(key, val)];
    assert data[..|data| - 1] == [];
    assert TopFieldText(p, key, val) == FieldText(p, key, val, 1);
    match FieldText(p, key, val, 1)
    case Ok(t) =>
      assert GenericText(p, data) == Ok("" + t);
      assert "" + t == t;
    case Err(_) =>
      assert GenericText(p, data) == FieldText(p, key, val, 1);
  }

  /** A title category holding one string field: the field's line at depth 1, quoted. */
  lemma TitleExample()
    ensures CategoryText(FormatSpecialCases, "title", [("text", Str("My Chart"))])
         == Ok(Tabs(1) + "text" + ": '" + "My Chart" + "',\n")
  {
    SingleFieldCategory(FormatSpecialCases, "title", "text", Str("My Chart"));
    DefaultScalarEncoding(FormatSpecialCases, "text", 1, false, "My Chart", 0);
  }

  /** The colors category is str() of its list: Python's list repr. */
  lemma ColorsExample()
    ensures CategoryText(FormatSpecialCases, "colors", [("colors", List([Str("#fff"), Str("#000")]))])
         == Ok("['#fff', '#000']")
  {
    var items := [Str("#fff"), Str("#000")];
    assert ReprItems(items, 1) == "'#fff'";
    assert ReprItems(items, 2) == "'#fff'" + ", " + "'#000'";
    assert PyStr(List(items)) == "[" + ("'#fff'" + ", " + "'#000'") + "]" == "['#fff', '#000']";
  }
}
