# PyHighcharts chart options: a Dafny model

PyHighcharts builds a Highcharts chart in Python. A `Highchart` object holds
one option object per category: `chart`, `title`, `series`, `plotOptions`
and so on. `set_options` merges nested option dictionaries into those
categories. `add_data_set` records a data series. Before the page is
rendered, each category is serialized to the text of a JavaScript object
literal.

This project models two parts of `highcharts/chart.py`:

- **The serializer** (module `Serializer`):
  - `FORMAT_SPECIAL_CASES`, the policy table;
  - `update_template`, which encodes one field;
  - `series_formatter`, `color_formatter` and `chart_formatter`.

  Each of them is a function giving the text it produces, or the Python
  exception it raises (`Result`). The source's append-to-a-string loops are
  methods proved against those functions.
- **The `Highchart` class** (module `Highcharts`):
  - the constructor and `__load_defaults__`;
  - `set_options`, with its flattening of nested dicts to `key2_key3` names;
  - `add_data_set`, with its series counter, default name and held start
    date and interval.

Module `Values` holds the option values and Python's ordered dictionaries.
It also holds `str()`/`repr()` of values and the exceptions raised. Module
`Braces` counts braces in the produced text. Module `SerializerProperties`
proves what the serializer promises:

- the policy's precedence;
- the default encodings;
- the shape of nested blocks;
- append-only accumulation;
- series order;
- which exception is the only one possible under the shipped policy;
- brace balance of the emitted text.

## Model

| member | source | states |
|---|---|---|
| Serializer.FieldText | highcharts/chart.py:55-83 | every successful text `update_template` appends ends with ",\n" |
| Serializer.UpdateTemplate | highcharts/chart.py:55-83 | result is `tmp` followed by the field's text, or the exception it raises; on success `tmp` is a prefix of the result (append-only) |
| Serializer.AppendEntries | highcharts/chart.py:61-62 | walking a dict's items with `update_template` gives the accumulator followed by every field's text in item order; the first exception ends the walk |
| Serializer.NestedBlock | highcharts/chart.py:114-118 | a dict at category level gives "\tkey: {\n", its fields at depth 3, then "\t\t},\n" |
| Serializer.AppendTopField | highcharts/chart.py:113-125 | one pass of the category loop appends the text of one top-level field (block for a dict or SeriesOptions, `update_template` at depth 1 otherwise) |
| Serializer.ChartFormatter | highcharts/chart.py:96-126 | the method's result equals the category's text: "" for empty data, then `series`, `colors`, or the generic loop |
| Serializer.AppendSeriesBlock | highcharts/chart.py:89-92 | one series object appends "{\n", its attributes at depth 2 and "\t},", or raises |
| Serializer.SeriesFormatter | highcharts/chart.py:85-93 | the method's result equals the series text: KeyError without "data", TypeError when it is not iterable, otherwise the blocks in list order |
| SerializerProperties.EntriesPrefixGrows | highcharts/chart.py:61-62 | append-only: when a longer walk succeeds, every shorter walk succeeds and its text is a prefix of the longer one's |
| SerializerProperties.EntriesPrefixLocal | highcharts/chart.py:61-62 | the text of the first n fields depends only on those n fields |
| SerializerProperties.EntriesPrefixSplit | highcharts/chart.py:61-62 | walking n fields is walking the first m, then the rest, joined |
| SerializerProperties.EntriesTextConcat | highcharts/chart.py:61-62 | the text of the concatenation of two dicts is the concatenation of their texts, and the first exception wins |
| SerializerProperties.SeriesTextConcat | highcharts/chart.py:88-92 | series are emitted in list order: the text of xs + ys is that of xs followed by that of ys |
| SerializerProperties.SeriesTextSingle | highcharts/chart.py:88-92 | one series gives "{\n" + its attributes at depth 2 + "\t},"; a value without `__dict__` raises AttributeError |
| SerializerProperties.GenericTextConcat | highcharts/chart.py:113-125 | the generic loop emits the top-level fields in order, concatenated |
| SerializerProperties.SkipQuotesWins | highcharts/chart.py:76-78 | a field the policy marks "skip_quotes" is emitted as `str(val)` without quotes, whatever its type |
| SerializerProperties.SpecialCasesOfFormatSpecialCases | highcharts/chart.py:76-82 | under FORMAT_SPECIAL_CASES, `pointStart` strings are unquoted, `formatter` is always `str(val.formatter)` or AttributeError (never the type-based encoding), and a string under any other key is single-quoted |
| SerializerProperties.DefaultScalarEncoding | highcharts/chart.py:65-75 | for a key outside the policy, bool gives `true`/`false`, a str is single-quoted, an int is bare |
| SerializerProperties.DictBlockShape | highcharts/chart.py:59-64 | a dict field succeeds exactly when its entries do; it gives an opening line, the entries at depth 3 and "\t\t},\n"; an empty dict still gives both lines |
| SerializerProperties.CategoryDictBeforePolicy | highcharts/chart.py:113-118 | a top-level dict is emitted as a nested block before the policy is consulted |
| SerializerProperties.FieldTextRaisesOnlyOnFormatter | highcharts/chart.py:76-82 | under FORMAT_SPECIAL_CASES a field succeeds exactly when every `formatter` field in it resolves; otherwise it raises AttributeError("formatter"), and never NotImplementedError |
| SerializerProperties.EntriesRaiseOnlyOnFormatter | highcharts/chart.py:61-62 | the same for a dict's fields: success iff every formatter resolves; the only error is AttributeError("formatter") |
| SerializerProperties.FieldTextBalanced | highcharts/chart.py:55-83 | when every string, key and class name in the field is itself balanced (a formatter's callback body included), its text nests its braces properly |
| SerializerProperties.EntriesPrefixBalanced | highcharts/chart.py:61-62 | the walked fields of a dict whose strings, keys and class names are balanced nest their braces properly |
| SerializerProperties.SeriesBlockBalanced | highcharts/chart.py:89-92 | one series block nests its braces properly when the series object's strings are balanced |
| SerializerProperties.SeriesTextBalanced | highcharts/chart.py:88-92 | the series text nests its braces properly when every series object's strings are balanced |
| SerializerProperties.GenericTextBalanced | highcharts/chart.py:113-125 | the generic category text nests its braces properly when the data's strings, keys and class names are balanced |
| SerializerProperties.CategoryTextBalanced | highcharts/chart.py:96-126 | every category's text nests its braces properly when the data's strings, keys and class names are balanced |
| SerializerProperties.ColorTextBalanced | highcharts/chart.py:50-52 | the colors text nests its braces properly when the data's strings are balanced |
| SerializerProperties.SeriesFormatterBalanced | highcharts/chart.py:85-93 | the series category text nests its braces properly when the data's strings are balanced |
| SerializerProperties.FormatterFieldBalanced | highcharts/chart.py:79-80 | a `formatter` field whose callback body is balanced serializes, and its text nests its braces properly |
| SerializerProperties.CallbackBodyBalanced | highcharts/chart.py:79-80 | a callback body with braces, "function () { return this.y; }", meets that requirement |
| SerializerProperties.UnescapedBraceUnbalanced | highcharts/chart.py:72-75 | a string holding a lone "{" is copied unescaped, so the emitted text no longer balances: the requirement above cannot be dropped |
| SerializerProperties.EmptyCategoryOmitted | highcharts/chart.py:106-108 | empty data gives "" for every category, before the `series`/`colors` dispatch |
| SerializerProperties.TopFieldCommaTerminated | highcharts/chart.py:113-125 | each top-level field's text ends with ",\n" |
| SerializerProperties.GenericCategoryEmptyIff | highcharts/chart.py:106-125 | for a generic category that serializes, the text is empty exactly when the data is |
| SerializerProperties.SeriesWithEmptyDataList | highcharts/chart.py:85-93 | a series category whose data list is empty gives "" |
| SerializerProperties.SingleFieldCategory | highcharts/chart.py:124-125 | a non-dict, non-SeriesOptions top-level field is `update_template` at depth 1 |
| SerializerProperties.TitleExample | highcharts/chart.py:72-75 | `title` with text "My Chart" gives "\ttext: 'My Chart',\n" |
| Serializer.ColorText | highcharts/chart.py:50-52 | `color_formatter` succeeds iff the data has a "colors" key, raising KeyError("colors") otherwise; its text is `str()` of a value stored under "colors" |
| SerializerProperties.ColorsExample | highcharts/chart.py:50-52 | `colors` is emitted as the `str()` of its list value |
| Values.PutLookup | highcharts/chart.py:308-310 | after `d[k] = v`, `d[k]` is v and every other key reads as before |
| Values.PutPlace | highcharts/chart.py:308-310 | a new key goes last; assigning to an existing key leaves the length unchanged |
| Values.PutInPlace | highcharts/chart.py:308-310 | an existing key keeps its place: its pair is replaced where it stands and the pairs before and after it are unchanged |
| Highcharts.DefaultOptions | highcharts/chart.py:141-160 | the options dict has exactly the eighteen categories |
| Highcharts.DefaultOptionsSpec | highcharts/chart.py:198-202 | the defaults: renderTo "container", title "A New Highchart", yAxis title_text "units", credits disabled, the series category holding an empty `data` list, every other category an empty record (the assumed starting state of the option classes, see "## Left out") |
| Highcharts.DefaultCreditsText | highcharts/chart.py:202 | the default credits category serializes to "\tenabled: false,\n" |
| Highcharts.ForwardAllowed | highcharts/chart.py:165-169 | the loop over the allowed keywords gives the chart record with each present keyword forwarded |
| Highcharts.ForwardKwargsLookup | highcharts/chart.py:165-169 | after forwarding, an allowed keyword that kwargs holds reads as kwargs' value; anything else reads as before |
| Highcharts.Highchart.constructor | highcharts/chart.py:133-172 | the defaults with the allowed kwargs forwarded to `chart`, an empty series list, counter 0, nothing held |
| Highcharts.BuildNewOptions | highcharts/chart.py:302-311 | the first loop of `set_options` builds the flattened new options, or raises AttributeError for a value without `items()` |
| Highcharts.FlattenLoop | highcharts/chart.py:304-310 | the inner loops build the flattened dict of one category |
| Highcharts.ExpandInto | highcharts/chart.py:306-308 | a nested dict under key2 adds `key2_key3` for each of its keys |
| Highcharts.ExpandMembers | highcharts/chart.py:305-310 | a (name, value) update comes from an entry iff it is `key2_key3` of a nested dict or the entry itself |
| Highcharts.FlatPairsMembers | highcharts/chart.py:305-310 | the updates of a category are exactly those its entries produce |
| Highcharts.FlattenLookup | highcharts/chart.py:304-310 | a flattened name reads as the last update made to it |
| Highcharts.NewOptionsOkIff | highcharts/chart.py:303-305 | the first loop succeeds iff every option value is a dict |
| Highcharts.NewOptionsLookup | highcharts/chart.py:302-311 | a category in the new options holds the flattening of its last value; a category not named is absent |
| Highcharts.MergeKeepsCategories | highcharts/chart.py:312-313 | the merge neither adds nor removes a category |
| Highcharts.MergeOkIff | highcharts/chart.py:312-313 | the merge succeeds iff every named category exists |
| Highcharts.MergeStopsAtUnknown | highcharts/chart.py:312-313 | the first unknown category raises KeyError; the categories before it are merged and none after it |
| Highcharts.MergeCategoryUntouched | highcharts/chart.py:312-313 | a category not named keeps its options |
| Highcharts.MergeCategoryNamedOnce | highcharts/chart.py:312-313 | a category named once is its old options updated with its new ones |
| Highcharts.Highchart.MergeNewOptions | highcharts/chart.py:312-313 | the second loop leaves the options and result the merge gives; the other fields are unchanged |
| Highcharts.Highchart.SetOptions | highcharts/chart.py:300-313 | a value without `items()` raises before anything changes; otherwise the options become the merge of the flattened new options |
| Highcharts.Highchart.InjectHeld | highcharts/chart.py:284-289 | a held non-empty start date and non-zero interval go into the kwargs and are then cleared |
| Highcharts.Highchart.RegisterSeriesOptions | highcharts/chart.py:290-293 | plotOptions gains a SeriesOptions for a series type it does not have yet; when kw also holds `supress_errors`, building it raises TypeError and plotOptions is unchanged |
| Highcharts.Highchart.AddDataSet | highcharts/chart.py:278-297 | the counter goes up first and the held values are consumed; a caller keyword `supress_errors` then raises TypeError with the options unchanged; otherwise the series type is registered, then the Series object is appended to the `data` list of the series category, or AttributeError is raised, with the earlier steps kept, when that list is missing or not a list |
| Highcharts.Highchart.AppendSeriesData | highcharts/chart.py:297 | the series category's `data` list gains the object at its end, or AttributeError leaves the options as they were; nothing else changes |
| Highcharts.AppendSeries | highcharts/chart.py:297 | the append succeeds iff the series record has a `data` attribute that is a list; AttributeError("data") or AttributeError("append") otherwise |
| Highcharts.AppendSeriesSpec | highcharts/chart.py:297 | after the append the record has the same keys, `data` is the old list followed by the object, and every other attribute is unchanged |
| Highcharts.SeriesCategoryAfterAppend | highcharts/chart.py:294-297 | after a data set is appended, the series category serializes to its former text followed by the new Series object's block |
| Highcharts.FreshSeriesText | highcharts/chart.py:154 | a new chart's series category serializes to "" |
| Highcharts.KeywordClashFromCaller | highcharts/chart.py:283-295 | the keywords passed on to SeriesOptions and Series hold `supress_errors` exactly when the caller's kwargs do |
| Highcharts.DataSetKwargsLookup | highcharts/chart.py:280-289 | the kwargs of a data set: "name" is the series name, held values that count override the caller's, other keys are the caller's |
| Highcharts.SeriesNameDefault | highcharts/chart.py:280-282 | a missing or empty name becomes "Series n", n being the new counter |
| Highcharts.HeldValuesConsumedOnce | highcharts/chart.py:284-289 | once a data set has consumed the held start date and interval, the next one carries the caller's `pointStart`/`pointInterval`, not the held ones |
| Highcharts.RegisterSeriesTypeSpec | highcharts/chart.py:290-293 | only plotOptions changes; a new series type is registered with those kwargs, an existing one keeps its options |
| Highcharts.DateUTC | highcharts/chart.py:236-243 | the start-date text is a brace-free JavaScript expression opening with "Date.UTC(" and ending with ", 0, 0)" (minutes and seconds zero) |
| Highcharts.DateUTCExample | highcharts/chart.py:236-243 | the start date is formatted as "Date.UTC(y, m-1, d, h, 0, 0)" |
| Highcharts.PointStartUnquoted | highcharts/chart.py:77-78 | a `pointStart` date expression is emitted unquoted |

## Left out

- Rendering and output (`show`, `__render__`, `generate`, templates, files, the browser) are I/O and are not modelled.
- `__export_options__` and the `title`, `colors` and `chart_background` accessors are thin wrappers. They are not modelled.
- `set_start_date`: only the date text it formats is modelled (`DateUTC`). Its `isinstance(date, datetime)` test is not modelled, because it names the `datetime` module rather than the class. Dates, time zones and `datetime` objects are not modelled.
- `set_start_date` and `set_interval`, which set the held values, are not modelled as operations. The held values are fields of the class that `add_data_set` reads and clears.
- highcharts/options.py, highcharts/highchart_types.py and highcharts/common.py are not part of this model:
  - each option object is its attribute record;
  - `update_dict` is a dict update;
  - `title_text` is kept flat;
  - a SeriesOptions' attributes are the kwargs it was built from;
  - a Series' attributes are its data, its type and then the kwargs it was built from;
  - the series category (`SeriesData`) is the record of its `data` attribute, an empty list at first;
  - every option class other than `SeriesData` (`ChartOptions`, `ColorsOptions` and the rest) is assumed to start with an empty attribute record, so a new chart's other categories are `{}` and are omitted from the output until set;
  - their own validation and `supress_errors` handling are left out.
- Python 2 dict iteration order is hash order. The model iterates in insertion order.
- PyRepr always puts single quotes around a str and copies it unchanged. The choice of double quotes for a str that holds `'` and all escaping by `repr()` (quotes, backslashes, control and non-ASCII bytes) are left out. This reaches the output through the `%s` fallback for lists and dicts and through `color_formatter`.
- The repr of a class instance is taken to be `<module.Class object>`, with the module named as in chart.py's imports (`ClassName`). The package prefix (`highcharts.`), the old-style `instance` form, any `__repr__` or `__str__` of those classes and the object address are left out.
- Floats, longs and unicode strings are left out. Values are bools, strs, ints, None, lists, dicts and objects.
- SerializerProperties.CategoryTextBalanced: brace balance is proved only for data whose strings, keys and class names are themselves balanced. The serializer copies strings without escaping, so an unbalanced string breaks the balance (UnescapedBraceUnbalanced).
- The model follows the code where a reader might expect otherwise:
  - an empty record is omitted only at category level; a nested empty dict still gives its opening and closing lines;
  - a top-level dict or SeriesOptions is emitted as a block before the policy is consulted;
  - values of unsupported types are written with `%s`; they raise no error;
  - the series text has no list brackets and no separator beyond "\t},";
  - nested blocks use fixed indentation ("\t" to open, depth 3 for entries, "\t\t}," to close) at any depth.
