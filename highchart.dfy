/** The Highchart class of highcharts/chart.py: its option categories, the
    flattening merge of set_options and the data-set bookkeeping of
    add_data_set.  Each option class (ChartOptions, PlotOptions, ...) is
    modelled as the string-keyed record of its attributes, and its update_dict
    as a dict update of that record. */
module Highcharts {
  import opened Braces
  import opened Values
  import opened Serializer
  import opened SerializerProperties

  /** The keys of Highchart.options. */
  const Categories: set<string> := {
    "chart", "colors", "credits", "exporting", "global", "labels", "lang", "legend", "loading",
    "navigation", "pane", "plotOptions", "series", "subtitle", "title", "tooltip", "xAxis", "yAxis"}

  /** The constructor keywords that are forwarded to the chart category. */
  const AllowedKwargs: seq<string> := ["width", "height", "renderTo", "backgroundColor"]

  /** The record of the series category: its `data` list, empty at first. */
  const EmptySeries: Record := [("data", List([]))]

  // ---------------------------------------------------------------------
  // __init__ and __load_defaults__

  /** A new chart's categories. Every option object other than the series
      category is taken to start with no attributes. */
  function DefaultOptions(): (opts: map<string, Record>)
    ensures opts.Keys == Categories
  {
    var empty := map c | c in Categories :: [];
    empty["series" := EmptySeries]
         ["chart" := [("renderTo", Str("container"))]]
         ["title" := [("text", Str("A New Highchart"))]]
         ["yAxis" := [("title_text", Str("units"))]]
         ["credits" := [("enabled", Bool(false))]]
  }

  /** The chart record after forwarding those of allowed that kwargs holds. */
  function ForwardKwargs(chart: Record, kwargs: Record, allowed: seq<string>): Record {
    if allowed == [] then chart
    else
      var pre := ForwardKwargs(chart, kwargs, allowed[..|allowed| - 1]);
      var keyword := allowed[|allowed| - 1];
      match Lookup(kwargs, keyword)
      case Some(v) => Put(pre, keyword, v)
      case None => pre
  }

  /** The constructor's loop over the allowed keywords: each one kwargs
      holds updates the chart record. */
  method ForwardAllowed(chart: Record, kwargs: Record) returns (r: Record)
    ensures r == ForwardKwargs(chart, kwargs, AllowedKwargs)
  {
    r := chart;
    var i := 0;
    while i < |AllowedKwargs|
      invariant 0 <= i <= |AllowedKwargs|
      invariant r == ForwardKwargs(chart, kwargs, AllowedKwargs[..i])
    {
      assert AllowedKwargs[..i + 1][..i] == AllowedKwargs[..i];
      var keyword := AllowedKwargs[i];
      var v := Lookup(kwargs, keyword);
      if v.Some? {
        r := Put(r, keyword, v.value);
      }
      i := i + 1;
    }
    assert AllowedKwargs[..|AllowedKwargs|] == AllowedKwargs;
  }

  // ---------------------------------------------------------------------
  // set_options

  /** The flat (name, value) updates one entry of an option dict contributes:
      a nested dict {key3: v} under key2 gives key2_key3: v, anything else
      stays under key2. */
  function Expand(key2: string, val: Value): seq<(string, Value)> {
    if val.Dict? then
      seq(|val.entries|, j requires 0 <= j < |val.entries| => (key2 + "_" + val.entries[j].0, val.entries[j].1))
    else [(key2, val)]
  }

  /** The updates set_options applies to `data`, in order. */
  function FlatPairs(optionData: Record): seq<(string, Value)> {
    if optionData == [] then []
    else
      var last := optionData[|optionData| - 1];
      FlatPairs(optionData[..|optionData| - 1]) + Expand(last.0, last.1)
  }

  /** The flattened dict set_options builds for one category. */
  function Flatten(optionData: Record): Record {
    PutAll([], FlatPairs(optionData))
  }

  /** option_data.items() */
  function ItemsOf(v: Value): Result<Record> {
    if v.Dict? then Ok(v.entries) else Err(AttributeError("items"))
  }

  /** new_options as the first loop of set_options builds it. */
  function NewOptions(input: Record): Result<seq<(string, Record)>> {
    if input == [] then Ok([])
    else
      var pre :- NewOptions(input[..|input| - 1]);
      var last := input[|input| - 1];
      var optionData :- ItemsOf(last.1);
      Ok(Put(pre, last.0, Flatten(optionData)))
  }

  /** The second loop of set_options: update_dict on each named category, in
      order; an unknown category raises KeyError after the earlier ones merged. */
  function MergeOptions(opts: map<string, Record>, newOptions: seq<(string, Record)>)
    : (map<string, Record>, Result<()>)
  {
    if newOptions == [] then (opts, Ok(()))
    else
      var (merged, status) := MergeOptions(opts, newOptions[..|newOptions| - 1]);
      var (key, val) := newOptions[|newOptions| - 1];
      if status.Err? then (merged, status)
      else if key !in merged then (merged, Err(KeyError(key)))
      else (merged[key := PutAll(merged[key], val)], Ok(()))
  }

  /** The merge never adds or removes a category. */
  lemma {:induction false} MergeKeepsCategories(opts: map<string, Record>, newOptions: seq<(string, Record)>)
    ensures MergeOptions(opts, newOptions).0.Keys == opts.Keys
    decreases |newOptions|
  {
    if newOptions != [] {
      MergeKeepsCategories(opts, newOptions[..|newOptions| - 1]);
    }
  }

  // ---------------------------------------------------------------------
  // add_data_set

  /** `if not name`: None and "" both take the default name. */
  function SeriesName(name: Option<string>, count: int): string {
    if name.Some? && name.value != "" then name.value else "Series " + IntToString(count)
  }

  /** `if self.hold_point_start`: a held start date counts only when non-empty. */
  predicate StartHeld(hold: Option<string>) {
    hold.Some? && hold.value != ""
  }

  /** `if self.hold_point_interval`: a held interval counts only when non-zero. */
  predicate IntervalHeld(hold: Option<int>) {
    hold.Some? && hold.value != 0
  }

  /** The kwargs add_data_set passes to SeriesOptions and Series. */
  function DataSetKwargs(kwargs: Record, name: Option<string>, count: int,
                         holdStart: Option<string>, holdInterval: Option<int>): Record
  {
    WithHeld(Put(kwargs, "name", Str(SeriesName(name, count))), holdStart, holdInterval)
  }

  /** kw with the held start date and interval, those that count, added. */
  function WithHeld(kw: Record, holdStart: Option<string>, holdInterval: Option<int>): Record {
    var started := if StartHeld(holdStart) then Put(kw, "pointStart", Str(holdStart.value)) else kw;
    if IntervalHeld(holdInterval) then Put(started, "pointInterval", Int(holdInterval.value)) else started
  }

  /** plotOptions gains a SeriesOptions for a series type it does not have yet. */
  function RegisterSeriesType(opts: map<string, Record>, seriesType: string, kwargs: Record): map<string, Record>
    requires "plotOptions" in opts
  {
    if seriesType in Keys(opts["plotOptions"]) then opts
    else opts["plotOptions" := Put(opts["plotOptions"], seriesType, Obj(SeriesOptionsObj, kwargs))]
  }

  /** The keyword add_data_set passes itself to SeriesOptions and Series. */
  const SupressErrors := "supress_errors"

  /** Python's complaint when a caller keyword repeats that one. */
  const KeywordClash: Error := TypeError("got multiple values for keyword argument 'supress_errors'")

  /** The Series object add_data_set builds: its data, its type and the
      kwargs, as the record of its attributes. */
  function SeriesObject(data: Value, seriesType: string, kw: Record): Value {
    Obj(SeriesObj, PutAll([("data", data), ("type", Str(seriesType))], kw))
  }

  /** self.options["series"].data.append(x) on the series record: the data
      attribute must exist and be a list. */
  function AppendSeries(rec: Record, x: Value): (r: Result<Record>)
    ensures r.Ok? <==> Lookup(rec, "data").Some? && Lookup(rec, "data").value.List?
    ensures Lookup(rec, "data").None? ==> r == Err(AttributeError("data"))
    ensures Lookup(rec, "data").Some? && !Lookup(rec, "data").value.List? ==> r == Err(AttributeError("append"))
  {
    match Lookup(rec, "data")
    case None => Err(AttributeError("data"))
    case Some(v) =>
      if v.List? then Ok(Put(rec, "data", List(v.items + [x]))) else Err(AttributeError("append"))
  }

  // ---------------------------------------------------------------------
  // set_start_date's date text

  /** The "Date.UTC(y, m-1, d, h, 0, 0)" expression set_start_date formats; month is 1-based. */
  function DateUTC(year: int, month: int, day: int, hour: int): (s: string)
    ensures NoBraces(s)
    ensures |s| > 16 && s[..9] == "Date.UTC(" && s[|s| - 7..] == ", 0, 0)"
  {
    DateText(IntToString(year), IntToString(month - 1), IntToString(day), IntToString(hour));
    "Date.UTC(" + IntToString(year) + ", " + IntToString(month - 1) + ", " + IntToString(day)
      + ", " + IntToString(hour) + ", 0, 0)"
  }

  lemma DateText(y: string, m: string, d: string, h: string)
    requires NoBraces(y) && NoBraces(m) && NoBraces(d) && NoBraces(h)
    requires |y| >= 1 && |m| >= 1 && |d| >= 1 && |h| >= 1
    ensures var s := "Date.UTC(" + y + ", " + m + ", " + d + ", " + h + ", 0, 0)";
      && NoBraces(s) && |s| > 16 && s[..9] == "Date.UTC(" && s[|s| - 7..] == ", 0, 0)"
  {
    var args := y + ", " + m + ", " + d + ", " + h;
    NoBracesConcat(y, ", ");
    NoBracesConcat(y + ", ", m);
    NoBracesConcat(y + ", " + m, ", ");
    NoBracesConcat(y + ", " + m + ", ", d);
    NoBracesConcat(y + ", " + m + ", " + d, ", ");
    NoBracesConcat(y + ", " + m + ", " + d + ", ", h);
    NoBracesConcat("Date.UTC(", args);
    NoBracesConcat("Date.UTC(" + args, ", 0, 0)");
    var s := "Date.UTC(" + args + ", 0, 0)";
    assert s == "Date.UTC(" + y + ", " + m + ", " + d + ", " + h + ", 0, 0)";
    assert s[..9] == "Date.UTC(";
    assert s[|s| - 7..] == ", 0, 0)";
  }

  // ---------------------------------------------------------------------

  class Highchart {
    /** self.options: each category's option object as the record of its
        attributes; the series category's `data` list holds the Series objects. */
    var options: map<string, Record>
    var dataSetCount: int
    var holdPointStart: Option<string>
    var holdPointInterval: Option<int>

    ghost predicate Valid()
      reads this
    {
      && options.Keys == Categories
    }

    /** Highchart(**kwargs). */
    constructor (kwargs: Record)
      ensures Valid()
      ensures options == DefaultOptions()["chart" := ForwardKwargs(DefaultOptions()["chart"], kwargs, AllowedKwargs)]
      ensures dataSetCount == 0
      ensures holdPointStart == None && holdPointInterval == None
    {
      holdPointStart := None;
      holdPointInterval := None;
      var opts := DefaultOptions();
      var chart := ForwardAllowed(opts["chart"], kwargs);
      options := opts["chart" := chart];
      dataSetCount := 0;
    }

    /** set_options(options): build every category's flattened options, then
        merge them into the chart's options in order. */
    method SetOptions(input: Record) returns (r: Result<()>)
      requires Valid()
      modifies this
      ensures Valid()
      ensures dataSetCount == old(dataSetCount)
      ensures holdPointStart == old(holdPointStart) && holdPointInterval == old(holdPointInterval)
      ensures NewOptions(input).Err? ==> r == Err(NewOptions(input).error) && options == old(options)
      ensures NewOptions(input).Ok? ==> (options, r) == MergeOptions(old(options), NewOptions(input).value)
    {
      var newOptions := BuildNewOptions(input);
      if newOptions.Err? {
        return Err(newOptions.error);
      }
      r := MergeNewOptions(newOptions.value);
    }

    /** The second loop of set_options: update_dict on each named category. */
    method MergeNewOptions(newOptions: seq<(string, Record)>) returns (r: Result<()>)
      requires Valid()
      modifies this
      ensures Valid()
      ensures dataSetCount == old(dataSetCount)
      ensures holdPointStart == old(holdPointStart) && holdPointInterval == old(holdPointInterval)
      ensures (options, r) == MergeOptions(old(options), newOptions)
    {
      var j := 0;
      ghost var opts0 := options;
      MergeKeepsCategories(opts0, newOptions[..0]);
      while j < |newOptions|
        invariant 0 <= j <= |newOptions|
        invariant (options, Ok(())) == MergeOptions(opts0, newOptions[..j])
        invariant Valid()
        invariant dataSetCount == old(dataSetCount)
        invariant holdPointStart == old(holdPointStart) && holdPointInterval == old(holdPointInterval)
      {
        assert newOptions[..j + 1][..j] == newOptions[..j];
        var (key, val) := newOptions[j];
        if key !in options {
          MergeErrSticks(opts0, newOptions, j + 1);
          MergeKeepsCategories(opts0, newOptions);
          return Err(KeyError(key));
        }
        options := options[key := PutAll(options[key], val)];
        MergeKeepsCategories(opts0, newOptions[..j + 1]);
        j := j + 1;
      }
      assert newOptions[..|newOptions|] == newOptions;
      return Ok(());
    }

    /** The hold_point_start / hold_point_interval step of add_data_set: each
        held value that counts goes into kw and is then cleared. */
    method InjectHeld(kw: Record) returns (r: Record)
      modifies this
      ensures r == WithHeld(kw, old(holdPointStart), old(holdPointInterval))
      ensures holdPointStart == if StartHeld(old(holdPointStart)) then None else old(holdPointStart)
      ensures holdPointInterval == if IntervalHeld(old(holdPointInterval)) then None else old(holdPointInterval)
      ensures options == old(options) && dataSetCount == old(dataSetCount)
    {
      r := kw;
      if holdPointStart.Some? && holdPointStart.value != "" {
        r := Put(r, "pointStart", Str(holdPointStart.value));
        holdPointStart := None;
      }
      if holdPointInterval.Some? && holdPointInterval.value != 0 {
        r := Put(r, "pointInterval", Int(holdPointInterval.value));
        holdPointInterval := None;
      }
    }

    /** The plotOptions step of add_data_set: a series type seen for the first
        time gets a SeriesOptions built from kw, and building it raises
        TypeError when kw repeats supress_errors. */
    method RegisterSeriesOptions(seriesType: string, kw: Record) returns (r: Result<()>)
      requires "plotOptions" in options
      modifies this
      ensures seriesType !in Keys(old(options)["plotOptions"]) && SupressErrors in Keys(kw) ==>
                r == Err(KeywordClash) && options == old(options)
      ensures seriesType in Keys(old(options)["plotOptions"]) || SupressErrors !in Keys(kw) ==>
                r == Ok(()) && options == RegisterSeriesType(old(options), seriesType, kw)
      ensures dataSetCount == old(dataSetCount)
      ensures holdPointStart == old(holdPointStart) && holdPointInterval == old(holdPointInterval)
    {
      var plot := options["plotOptions"];
      if seriesType !in Keys(plot) {
        if SupressErrors in Keys(kw) {
          return Err(KeywordClash);
        }
        options := options["plotOptions" := Put(plot, seriesType, Obj(SeriesOptionsObj, kw))];
      }
      return Ok(());
    }

    /** add_data_set(data, series_type, name, **kwargs): the counter and the
        held values change first. A caller keyword supress_errors makes the
        SeriesOptions or Series call raise TypeError before options change;
        otherwise the type is registered even when the series record has no
        list to append to. */
    method AddDataSet(data: Value, seriesType: string, name: Option<string>, kwargs: Record)
      returns (r: Result<()>)
      requires Valid()
      modifies this
      ensures Valid()
      ensures dataSetCount == old(dataSetCount) + 1
      ensures holdPointStart == if StartHeld(old(holdPointStart)) then None else old(holdPointStart)
      ensures holdPointInterval == if IntervalHeld(old(holdPointInterval)) then None else old(holdPointInterval)
      ensures SupressErrors in Keys(kwargs) ==> r == Err(KeywordClash) && options == old(options)
      ensures SupressErrors !in Keys(kwargs) ==>
        var kw := DataSetKwargs(kwargs, name, dataSetCount, old(holdPointStart), old(holdPointInterval));
        var registered := RegisterSeriesType(old(options), seriesType, kw);
        var appended := AppendSeries(old(options)["series"], SeriesObject(data, seriesType, kw));
        && (appended.Ok? ==> r == Ok(()) && options == registered["series" := appended.value])
        && (appended.Err? ==> r == Err(appended.error) && options == registered)
    {
      dataSetCount := dataSetCount + 1;
      var seriesName := if name.Some? && name.value != "" then name.value
                        else "Series " + IntToString(dataSetCount);
      var kw := Put(kwargs, "name", Str(seriesName));
      ghost var heldStart, heldInterval := holdPointStart, holdPointInterval;
      kw := InjectHeld(kw);
      KeywordClashFromCaller(kwargs, name, dataSetCount, heldStart, heldInterval);
      ghost var before := options;
      r := RegisterSeriesOptions(seriesType, kw);
      if r.Err? {
        return;
      }
      if SupressErrors in Keys(kw) {
        // the type was registered earlier; the Series call raises
        return Err(KeywordClash);
      }
      RegisterSeriesTypeSpec(before, seriesType, kw, "series");
      r := AppendSeriesData(SeriesObject(data, seriesType, kw));
    }

    /** The final step of add_data_set: self.options["series"].data.append(x). */
    method AppendSeriesData(x: Value) returns (r: Result<()>)
      requires Valid()
      modifies this
      ensures Valid()
      ensures dataSetCount == old(dataSetCount)
      ensures holdPointStart == old(holdPointStart) && holdPointInterval == old(holdPointInterval)
      ensures
        var appended := AppendSeries(old(options)["series"], x);
        && (appended.Ok? ==> r == Ok(()) && options == old(options)["series" := appended.value])
        && (appended.Err? ==> r == Err(appended.error) && options == old(options))
    {
      var appended := AppendSeries(options["series"], x);
      if appended.Err? {
        return Err(appended.error);
      }
      options := options["series" := appended.value];
      return Ok(());
    }
  }

  /** The first loop of set_options: new_options[key] = the flattened dict of
      each option value; a value without items() raises AttributeError. */
  method BuildNewOptions(input: Record) returns (r: Result<seq<(string, Record)>>)
    ensures r == NewOptions(input)
  {
    var newOptions: seq<(string, Record)> := [];
    var i := 0;
    while i < |input|
      invariant 0 <= i <= |input|
      invariant NewOptions(input[..i]) == Ok(newOptions)
    {
      assert input[..i + 1][..i] == input[..i];
      var (key, optionData) := input[i];
      if !optionData.Dict? {
        NewOptionsErrSticks(input, i + 1);
        return Err(AttributeError("items"));
      }
      var data := FlattenLoop(optionData.entries);
      newOptions := Put(newOptions, key, data);
      i := i + 1;
    }
    assert input[..|input|] == input;
    return Ok(newOptions);
  }

  /** The inner loops of set_options for one category: data.update per entry. */
  method FlattenLoop(optionData: Record) returns (data: Record)
    ensures data == Flatten(optionData)
  {
    data := [];
    var k := 0;
    while k < |optionData|
      invariant 0 <= k <= |optionData|
      invariant data == PutAll([], FlatPairs(optionData[..k]))
    {
      var (key2, val) := optionData[k];
      ghost var done := FlatPairs(optionData[..k]);
      if val.Dict? {
        data := ExpandInto(data, key2, val.entries);
      } else {
        data := Put(data, key2, val);
      }
      PutAllConcat([], done, Expand(key2, val));
      FlatPairsStep(optionData, k);
      k := k + 1;
    }
    assert optionData[..|optionData|] == optionData;
  }

  /** The innermost loop of set_options: one data.update per entry of a nested dict. */
  method ExpandInto(data: Record, key2: string, sub: Record) returns (r: Record)
    ensures r == PutAll(data, Expand(key2, Dict(sub)))
  {
    r := data;
    var m := 0;
    ghost var pairs := Expand(key2, Dict(sub));
    while m < |sub|
      invariant 0 <= m <= |sub|
      invariant r == PutAll(data, pairs[..m])
    {
      assert pairs[..m + 1] == pairs[..m] + [pairs[m]];
      PutAllSnoc(data, pairs[..m], pairs[m]);
      r := Put(r, key2 + "_" + sub[m].0, sub[m].1);
      m := m + 1;
    }
    assert pairs[..|sub|] == pairs;
  }

  lemma {:induction false} PutAllConcat<V>(r: seq<(string, V)>, a: seq<(string, V)>, b: seq<(string, V)>)
    ensures PutAll(r, a + b) == PutAll(PutAll(r, a), b)
    decreases |b|
  {
    if b == [] {
      assert a + b == a;
    } else {
      var b' := b[..|b| - 1];
      assert (a + b)[..|a + b| - 1] == a + b';
      PutAllConcat(r, a, b');
    }
  }

  lemma PutAllSnoc<V>(r: seq<(string, V)>, kvs: seq<(string, V)>, kv: (string, V))
    ensures PutAll(r, kvs + [kv]) == Put(PutAll(r, kvs), kv.0, kv.1)
  {
    assert (kvs + [kv])[..|kvs|] == kvs;
  }

  lemma FlatPairsStep(optionData: Record, k: nat)
    requires k < |optionData|
    ensures FlatPairs(optionData[..k + 1]) == FlatPairs(optionData[..k]) + Expand(optionData[k].0, optionData[k].1)
  {
    assert optionData[..k + 1][..k] == optionData[..k];
  }

  lemma {:induction false} NewOptionsErrSticks(input: Record, m: nat)
    requires m <= |input|
    requires NewOptions(input[..m]).Err?
    ensures NewOptions(input) == NewOptions(input[..m])
    decreases |input| - m
  {
    if m < |input| {
      assert input[..m + 1][..m] == input[..m];
      NewOptionsErrSticks(input, m + 1);
    } else {
      assert input[..m] == input;
    }
  }

  lemma {:induction false} MergeErrSticks(opts: map<string, Record>, newOptions: seq<(string, Record)>, m: nat)
    requires m <= |newOptions|
    requires MergeOptions(opts, newOptions[..m]).1.Err?
    ensures MergeOptions(opts, newOptions) == MergeOptions(opts, newOptions[..m])
    decreases |newOptions| - m
  {
    if m < |newOptions| {
      assert newOptions[..m + 1][..m] == newOptions[..m];
      MergeErrSticks(opts, newOptions, m + 1);
    } else {
      assert newOptions[..m] == newOptions;
    }
  }

  // ---------------------------------------------------------------------
  // Properties of the dict updates

  /** After d.update(kvs), a key reads as its last binding in kvs, or as before
      when kvs does not bind it. */
  lemma {:induction false} PutAllLookup<V>(r: seq<(string, V)>, kvs: seq<(string, V)>, k: string)
    ensures Lookup(PutAll(r, kvs), k) == if LastBinding(kvs, k).Some? then LastBinding(kvs, k) else Lookup(r, k)
    decreases |kvs|
  {
    if kvs != [] {
      var last := kvs[|kvs| - 1];
      PutAllLookup(r, kvs[..|kvs| - 1], k);
      PutLookup(PutAll(r, kvs[..|kvs| - 1]), last.0, last.1, k);
    }
  }

  /** The constructor forwards exactly the allowed keywords the caller passed. */
  lemma {:induction false} ForwardKwargsLookup(chart: Record, kwargs: Record, allowed: seq<string>, k: string)
    ensures Lookup(ForwardKwargs(chart, kwargs, allowed), k)
         == if k in allowed && Lookup(kwargs, k).Some? then Lookup(kwargs, k) else Lookup(chart, k)
    decreases |allowed|
  {
    if allowed != [] {
      var pre := allowed[..|allowed| - 1];
      var keyword := allowed[|allowed| - 1];
      ForwardKwargsLookup(chart, kwargs, pre, k);
      assert k in allowed <==> k in pre || k == keyword;
      if Lookup(kwargs, keyword).Some? {
        PutLookup(ForwardKwargs(chart, kwargs, pre), keyword, Lookup(kwargs, keyword).value, k);
      }
    }
  }

  // ---------------------------------------------------------------------
  // Properties of set_options

  /** The flat names one entry of an option dict contributes: key2_key3 for
      each key3 of a nested dict, key2 itself otherwise. */
  ghost predicate Produces(e: (string, Value), name: string, v: Value) {
    if e.1.Dict? then
      exists j :: 0 <= j < |e.1.entries| && name == e.0 + "_" + e.1.entries[j].0 && v == e.1.entries[j].1
    else e == (name, v)
  }

  /** The pairs one entry expands to are exactly the ones it produces. */
  lemma ExpandMembers(e: (string, Value), name: string, v: Value)
    ensures (name, v) in Expand(e.0, e.1) <==> Produces(e, name, v)
  {
    var ex := Expand(e.0, e.1);
    if e.1.Dict? {
      if (name, v) in ex {
        var j :| 0 <= j < |ex| && ex[j] == (name, v);
        assert name == e.0 + "_" + e.1.entries[j].0 && v == e.1.entries[j].1;
      }
      if Produces(e, name, v) {
        var j :| 0 <= j < |e.1.entries| && name == e.0 + "_" + e.1.entries[j].0 && v == e.1.entries[j].1;
        assert ex[j] == (name, v);
      }
    }
  }

  /** Flattening emits a pair exactly when some entry produces it. */
  lemma {:induction false} FlatPairsMembers(optionData: Record, name: string, v: Value)
    ensures (name, v) in FlatPairs(optionData)
        <==> exists i :: 0 <= i < |optionData| && Produces(optionData[i], name, v)
    decreases |optionData|
  {
    if optionData != [] {
      var pre := optionData[..|optionData| - 1];
      var last := optionData[|optionData| - 1];
      FlatPairsMembers(pre, name, v);
      ExpandMembers(last, name, v);
      assert (name, v) in FlatPairs(optionData)
         <==> (name, v) in FlatPairs(pre) || (name, v) in Expand(last.0, last.1);
      ProducedSomewhere(optionData, pre, name, v);
    }
  }

  /** Some entry of a non-empty record produces a pair exactly when one of
      the entries before the last does or the last does. */
  lemma ProducedSomewhere(optionData: Record, pre: Record, name: string, v: Value)
    requires optionData != [] && pre == optionData[..|optionData| - 1]
    ensures (exists i :: 0 <= i < |optionData| && Produces(optionData[i], name, v))
        <==> (exists i :: 0 <= i < |pre| && Produces(pre[i], name, v))
             || Produces(optionData[|optionData| - 1], name, v)
  {
    if exists i :: 0 <= i < |optionData| && Produces(optionData[i], name, v) {
      var i :| 0 <= i < |optionData| && Produces(optionData[i], name, v);
      if i < |pre| {
        assert pre[i] == optionData[i];
      }
    }
    if exists i :: 0 <= i < |pre| && Produces(pre[i], name, v) {
      var i :| 0 <= i < |pre| && Produces(pre[i], name, v);
      assert optionData[i] == pre[i];
    }
  }

  /** In the flattened category dict, a name reads as the last pair the
      flattening produced for it. */
  lemma FlattenLookup(optionData: Record, name: string)
    ensures Lookup(Flatten(optionData), name) == LastBinding(FlatPairs(optionData), name)
  {
    PutAllLookup([], FlatPairs(optionData), name);
  }

  /** The first loop of set_options succeeds exactly when every option value is a dict. */
  lemma {:induction false} NewOptionsOkIff(input: Record)
    ensures NewOptions(input).Ok? <==> forall i :: 0 <= i < |input| ==> input[i].1.Dict?
    decreases |input|
  {
    if input != [] {
      var pre := input[..|input| - 1];
      NewOptionsOkIff(pre);
      NewOptionsOkStep(input);
      AllDictsSplit(input, pre);
    }
  }

  lemma NewOptionsOkStep(input: Record)
    requires input != []
    ensures NewOptions(input).Ok?
        <==> NewOptions(input[..|input| - 1]).Ok? && input[|input| - 1].1.Dict?
  {
  }

  lemma AllDictsSplit(input: Record, pre: Record)
    requires input != [] && pre == input[..|input| - 1]
    ensures (forall i :: 0 <= i < |input| ==> input[i].1.Dict?)
        <==> (forall i :: 0 <= i < |pre| ==> pre[i].1.Dict?) && input[|input| - 1].1.Dict?
  {
    assert forall i :: 0 <= i < |pre| ==> pre[i] == input[i];
  }

  /** Each category named in the input maps to the flattening of its last dict. */
  lemma {:induction false} NewOptionsLookup(input: Record, c: string)
    requires NewOptions(input).Ok?
    ensures LastBinding(input, c).None? ==> Lookup(NewOptions(input).value, c) == None
    ensures LastBinding(input, c).Some? ==>
      && LastBinding(input, c).value.Dict?
      && Lookup(NewOptions(input).value, c) == Some(Flatten(LastBinding(input, c).value.entries))
    decreases |input|
  {
    if input != [] {
      var pre := input[..|input| - 1];
      var last := input[|input| - 1];
      NewOptionsLookup(pre, c);
      PutLookup(NewOptions(pre).value, last.0, Flatten(last.1.entries), c);
    }
  }

  /** The merge succeeds exactly when every category it names exists. */
  lemma {:induction false} MergeOkIff(opts: map<string, Record>, newOptions: seq<(string, Record)>)
    ensures MergeOptions(opts, newOptions).1.Ok? <==> forall i :: 0 <= i < |newOptions| ==> newOptions[i].0 in opts
    decreases |newOptions|
  {
    if newOptions != [] {
      var pre := newOptions[..|newOptions| - 1];
      MergeOkIff(opts, pre);
      MergeKeepsCategories(opts, pre);
      assert forall i :: 0 <= i < |pre| ==> pre[i] == newOptions[i];
    }
  }

  /** An unknown category raises KeyError after the categories before it have
      been merged, and nothing after it is merged. */
  lemma MergeStopsAtUnknown(opts: map<string, Record>, newOptions: seq<(string, Record)>, i: nat)
    requires i < |newOptions|
    requires forall j :: 0 <= j < i ==> newOptions[j].0 in opts
    requires newOptions[i].0 !in opts
    ensures MergeOptions(opts, newOptions)
         == (MergeOptions(opts, newOptions[..i]).0, Err(KeyError(newOptions[i].0)))
  {
    var pre := newOptions[..i];
    MergeOkIff(opts, pre);
    MergeKeepsCategories(opts, pre);
    assert newOptions[..i + 1][..i] == pre;
    MergeErrSticks(opts, newOptions, i + 1);
  }

  /** The keys of a record's prefix are keys of the record. */
  lemma KeysOfPrefix<V>(r: seq<(string, V)>, n: nat)
    requires n <= |r|
    ensures Keys(r[..n]) <= Keys(r)
  {
    forall k | k in Keys(r[..n]) ensures k in Keys(r) {
      var j :| 0 <= j < n && r[..n][j].0 == k;
      assert r[j].0 == k;
    }
  }

  /** A category the input does not name is left as it was, raised or not. */
  lemma {:induction false} MergeCategoryUntouched(opts: map<string, Record>, newOptions: seq<(string, Record)>, c: string)
    requires c in opts
    ensures c in MergeOptions(opts, newOptions).0
    ensures c !in Keys(newOptions) ==> MergeOptions(opts, newOptions).0[c] == opts[c]
    decreases |newOptions|
  {
    MergeKeepsCategories(opts, newOptions);
    if newOptions != [] {
      var pre := newOptions[..|newOptions| - 1];
      MergeCategoryUntouched(opts, pre, c);
      KeysOfPrefix(newOptions, |newOptions| - 1);
    }
  }

  /** A category the input names exactly once is updated with the flattened
      options given for it. */
  lemma {:induction false} MergeCategoryNamedOnce(opts: map<string, Record>, newOptions: seq<(string, Record)>, c: string, i: nat)
    requires c in opts
    requires MergeOptions(opts, newOptions).1.Ok?
    requires i < |newOptions| && newOptions[i].0 == c
    requires forall j :: 0 <= j < |newOptions| && j != i ==> newOptions[j].0 != c
    ensures c in MergeOptions(opts, newOptions).0
    ensures MergeOptions(opts, newOptions).0[c] == PutAll(opts[c], newOptions[i].1)
    decreases |newOptions|
  {
    MergeKeepsCategories(opts, newOptions);
    var n := |newOptions| - 1;
    var pre := newOptions[..n];
    assert MergeOptions(opts, pre).1.Ok?;
    MergeKeepsCategories(opts, pre);
    if i < n {
      assert forall j :: 0 <= j < |pre| ==> pre[j] == newOptions[j];
      MergeCategoryNamedOnce(opts, pre, c, i);
    } else {
      assert forall j :: 0 <= j < |pre| ==> pre[j].0 != c;
      MergeCategoryUntouched(opts, pre, c);
    }
  }

  // ---------------------------------------------------------------------
  // Properties of add_data_set

  /** The kwargs of a new data set: its name, the held start date and interval
      that count, and otherwise what the caller passed. */
  lemma DataSetKwargsLookup(kwargs: Record, name: Option<string>, count: int,
                            holdStart: Option<string>, holdInterval: Option<int>, k: string)
    ensures Lookup(DataSetKwargs(kwargs, name, count, holdStart, holdInterval), k)
         == if k == "pointInterval" && IntervalHeld(holdInterval) then Some(Int(holdInterval.value))
            else if k == "pointStart" && StartHeld(holdStart) then Some(Str(holdStart.value))
            else if k == "name" then Some(Str(SeriesName(name, count)))
            else Lookup(kwargs, k)
  {
    var named := Put(kwargs, "name", Str(SeriesName(name, count)));
    PutLookup(kwargs, "name", Str(SeriesName(name, count)), k);
    var started := if StartHeld(holdStart) then Put(named, "pointStart", Str(holdStart.value)) else named;
    if StartHeld(holdStart) {
      PutLookup(named, "pointStart", Str(holdStart.value), k);
    }
    if IntervalHeld(holdInterval) {
      PutLookup(started, "pointInterval", Int(holdInterval.value), k);
    }
  }

  /** A data set without a name is called "Series n", n being its position
      counted from one; a non-empty name is kept. */
  lemma SeriesNameDefault(name: Option<string>, count: nat)
    ensures name.None? || name.value == "" ==> SeriesName(name, count) == "Series " + Digits(count)
    ensures name.Some? && name.value != "" ==> SeriesName(name, count) == name.value
  {
  }

  /** The held values are consumed: the next data set, added before anything is
      held again, carries neither. */
  lemma HeldValuesConsumedOnce(kwargs: Record, name: Option<string>, count: int,
                               holdStart: Option<string>, holdInterval: Option<int>, k: string)
    requires k == "pointStart" || k == "pointInterval"
    ensures Lookup(DataSetKwargs(kwargs, name, count,
                                 if StartHeld(holdStart) then None else holdStart,
                                 if IntervalHeld(holdInterval) then None else holdInterval), k)
         == Lookup(kwargs, k)
  {
    DataSetKwargsLookup(kwargs, name, count,
                        if StartHeld(holdStart) then None else holdStart,
                        if IntervalHeld(holdInterval) then None else holdInterval, k);
  }

  /** Of the keywords add_data_set hands to SeriesOptions and Series, only the
      caller's can be supress_errors: the name and the held values never are. */
  lemma KeywordClashFromCaller(kwargs: Record, name: Option<string>, count: int,
                               holdStart: Option<string>, holdInterval: Option<int>)
    ensures SupressErrors in Keys(DataSetKwargs(kwargs, name, count, holdStart, holdInterval))
        <==> SupressErrors in Keys(kwargs)
  {
    DataSetKwargsLookup(kwargs, name, count, holdStart, holdInterval, SupressErrors);
  }

  /** A series type is registered in plotOptions once; the first data set of
      that type supplies its options, and the other categories stay as they were. */
  lemma RegisterSeriesTypeSpec(opts: map<string, Record>, seriesType: string, kwargs: Record, c: string)
    requires "plotOptions" in opts
    ensures RegisterSeriesType(opts, seriesType, kwargs).Keys == opts.Keys
    ensures c in opts && c != "plotOptions" ==> RegisterSeriesType(opts, seriesType, kwargs)[c] == opts[c]
    ensures Lookup(RegisterSeriesType(opts, seriesType, kwargs)["plotOptions"], seriesType)
         == match Lookup(opts["plotOptions"], seriesType)
            case Some(prev) => Some(prev)
            case None => Some(Obj(SeriesOptionsObj, kwargs))
    ensures forall t :: t != seriesType ==>
              Lookup(RegisterSeriesType(opts, seriesType, kwargs)["plotOptions"], t) == Lookup(opts["plotOptions"], t)
  {
    var plot := opts["plotOptions"];
    forall t
      ensures Lookup(RegisterSeriesType(opts, seriesType, kwargs)["plotOptions"], t)
           == if t == seriesType && seriesType !in Keys(plot) then Some(Obj(SeriesOptionsObj, kwargs))
              else Lookup(plot, t)
    {
      PutLookup(plot, seriesType, Obj(SeriesOptionsObj, kwargs), t);
    }
  }

  /** Appending keeps the series record's keys and its other attributes, and
      adds x at the end of the data list. */
  lemma AppendSeriesSpec(rec: Record, x: Value, k: string)
    requires AppendSeries(rec, x).Ok?
    ensures Keys(AppendSeries(rec, x).value) == Keys(rec)
    ensures Lookup(AppendSeries(rec, x).value, k)
         == if k == "data" then Some(List(Lookup(rec, "data").value.items + [x])) else Lookup(rec, k)
  {
    var items := Lookup(rec, "data").value.items;
    PutKeys(rec, "data", List(items + [x]));
    PutLookup(rec, "data", List(items + [x]), k);
  }

  /** After a data set is appended, the series category serializes to what it
      did before followed by the new Series object's block. */
  lemma {:induction false} SeriesCategoryAfterAppend(p: Policy, rec: Record, x: Value)
    requires AppendSeries(rec, x).Ok?
    ensures CategoryText(p, "series", AppendSeries(rec, x).value)
         == Concat(CategoryText(p, "series", rec), SeriesBlock(p, x))
  {
    var items := Lookup(rec, "data").value.items;
    AppendSeriesSpec(rec, x, "data");
    SeriesCategoryOfList(p, rec, items);
    SeriesCategoryOfList(p, AppendSeries(rec, x).value, items + [x]);
    assert (items + [x])[..|items|] == items;
  }

  /** A series record whose data is a list serializes to that list's blocks. */
  lemma SeriesCategoryOfList(p: Policy, rec: Record, items: seq<Value>)
    requires Lookup(rec, "data") == Some(List(items))
    ensures CategoryText(p, "series", rec) == SeriesText(p, items)
  {
    assert rec != [];
  }

  /** A new chart has a series category whose text is empty until data is added. */
  lemma FreshSeriesText(p: Policy)
    ensures CategoryText(p, "series", DefaultOptions()["series"]) == Ok("")
  {
    DefaultOptionsSpec("series");
  }

  // ---------------------------------------------------------------------
  // How the defaults and a held start date serialize

  /** __load_defaults__: four categories receive one default field each, the
      others start empty. */
  lemma DefaultOptionsSpec(c: string)
    ensures DefaultOptions()["chart"] == [("renderTo", Str("container"))]
    ensures DefaultOptions()["title"] == [("text", Str("A New Highchart"))]
    ensures DefaultOptions()["yAxis"] == [("title_text", Str("units"))]
    ensures DefaultOptions()["credits"] == [("enabled", Bool(false))]
    ensures DefaultOptions()["series"] == [("data", List([]))]
    ensures c in Categories && c !in {"chart", "title", "yAxis", "credits", "series"} ==> DefaultOptions()[c] == []
  {
  }

  /** The default credits category (see DefaultOptionsSpec) switches the credits off with a bare false. */
  lemma DefaultCreditsText()
    ensures CategoryText(FormatSpecialCases, "credits", [("enabled", Bool(false))])
         == Ok(Tabs(1) + "enabled" + ": " + "false" + ",\n")
  {
    SingleFieldCategory(FormatSpecialCases, "credits", "enabled", Bool(false));
    DefaultScalarEncoding(FormatSpecialCases, "enabled", 1, false, "", 0);
  }

  /** The date text set_start_date holds for 1 January 2021, midnight: the
      month is counted from zero. */
  lemma DateUTCExample()
    ensures DateUTC(2021, 1, 1, 0) == "Date.UTC(2021, 0, 1, 0, 0, 0)"
  {
    YearText();
    assert IntToString(0) == "0" && IntToString(1) == "1";
    assert "Date.UTC(" + "2021" + ", " + "0" + ", " + "1" + ", " + "0" + ", 0, 0)" == "Date.UTC(2021, 0, 1, 0, 0, 0)";
  }

  lemma YearText()
    ensures IntToString(2021) == "2021"
  {
    assert 2021 / 10 == 202 && 2021 % 10 == 1;
    assert 202 / 10 == 20 && 202 % 10 == 2;
    assert 20 / 10 == 2 && 20 % 10 == 0;
    assert Digits(2) == "2";
    assert Digits(20) == "2" + "0";
    assert Digits(202) == "20" + "2";
    assert Digits(2021) == "202" + "1";
  }

  /** A held start date reaches the page unquoted, as a JavaScript Date.UTC call. */
  lemma PointStartUnquoted(year: int, month: int, day: int, hour: int)
    ensures FieldText(FormatSpecialCases, "pointStart", Str(DateUTC(year, month, day, hour)), 1)
         == Ok("\tpointStart: " + DateUTC(year, month, day, hour) + ",\n")
  {
    assert "pointStart" in FormatSpecialCases && FormatSpecialCases["pointStart"] == "skip_quotes";
    assert Tabs(1) + "pointStart" + ": " == "\tpointStart: ";
  }
}
