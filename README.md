# Stacked bar chart: the data-shaping core

`src/lib/Bar.js` draws a stacked bar chart. Most of the file drives scales, axes, transitions and the DOM. This project models the decisions it makes inside its callbacks, over plain values:

- **Stacking** (`stacking.dfy`, module `Stacking`): the callback turns one category's metric values into the segments `{x, y0, y1}` drawn one above the other. With an array of metrics it keeps a running sum. With a single metric it gives the one segment `[0, value]`. `StackRecord` is the loop. `Segments` / `Stacked` is the closed-form reference: segment `i` spans from the sum of the values before it to the sum through it.
- **Value axis** (`value_axis.dfy`, module `ValueAxis`): the extent callback sums one record's metric fields. A missing field is `undefined`, which turns the sum into NaN (`Numbers.Num`). The domain is then `[0, upper * 1.1]`.
- **Colours** (`colors.dfy`, module `Colors`): three-way policy. A `color` function is used as it is. Otherwise an array passed as `scale` is the palette. Otherwise the seven-colour default palette is used. Either palette is keyed by `key.metric`.
- **Label layout** (`labels.dfy`, module `Labels`): all tick labels are rotated when some measured width exceeds the band width. Then each rotated label taller than the bottom margin is shortened. Its index `i` is scanned upward until the measured prefix reaches the hypotenuse, then the label keeps `substring(0, i - 4)` and gets `"..."` appended. Every text measurement is an input: widths, heights, and the prefix-length measure as a function `nat -> real`.
- **Tooltip** (`tooltip.dfy`, module `Tooltip`): with no tooltip function the content is the fixed `"Tooltip missing!"`. Otherwise it is the function's content anchored at the band centre and the stack total's pixel.

`numbers.dfy` (sums, NaN-aware addition) and `key.dfy` (the shape of `key.metric`) hold what these share. Values are `real`. The float `1.1` is the exact decimal.

A list passed as `color` is not used: line 121 accepts only a function, and line 125 tests `scale`, not `color`.

## Model

| member | source | states |
|---|---|---|
| `Stacking.StackRecord` | src/lib/Bar.js:155-180 | the callback's running-sum loop yields exactly the reference stack: for an array of metrics segment `i` is `{keys[i], sum of values before i, sum through i}`; for a single metric the one segment `{metric, 0, value}` |
| `Stacking.ArrayStackIsContiguous` | src/lib/Bar.js:157-172 | with an array of metrics: one segment per metric, in key order, `x` the metric name, height `y1 - y0` equal to that metric's value, first `y0 == 0`, each `y0` equal to the previous `y1` |
| `Stacking.StackReachesTotal` | src/lib/Bar.js:160-178 | for either metric shape the stack starts at 0 and its last `y1` is the sum of the metric values; a single metric gives exactly `[{metric, 0, value}]` |
| `Stacking.StackWithinTotal` | src/lib/Bar.js:164-169 | with non-negative values every segment is upright and lies between 0 and the stack total |
| `ValueAxis.SumFields` | src/lib/Bar.js:102-107 | the extent callback's loop ends with the running sum of the record's fields, NaN once a field is missing |
| `ValueAxis.TotalIsSum` | src/lib/Bar.js:102-107 | that sum is a number iff the record has every visited field, and is then the sum of their values |
| `ValueAxis.VisitedFieldsAsWritten` | src/lib/Bar.js:103-105 | the loop visits `key.metric[i]` for `i < key.metric.length`: the names of an array metric, or the single-character substrings of a single metric name |
| `ValueAxis.SingleMetricExtentIsNaN` | src/lib/Bar.js:101-108 | for metric `"sales"` and a record `{sales: 5}`, the callback as written yields NaN while summing the metric's own field yields 5 |
| `ValueAxis.ExtentIsStackTotal` | src/lib/Bar.js:101-108 | the corrected extent value of a record holding all metric fields equals the total its stack reaches, for both metric shapes |
| `ValueAxis.YDomain` | src/lib/Bar.js:110-111 | the domain is `[0, upper * 1.1]` for every numeric upper value (a negative one gives an inverted domain), and its top is NaN exactly when the upper value is |
| `ValueAxis.StacksFitDomain` | src/lib/Bar.js:101-111 | the domain top is `1.1 * upper` (at least `upper` when `upper >= 0`); when the upper extent bounds every stack total and values are non-negative, every segment of every stack lies within `[0, 1.1 * upper]` |
| `ValueAxis.RecordsFitDomain` | src/lib/Bar.js:101-111 | when every record holds all metric fields with non-negative values and the upper extent bounds each record's corrected extent sum, every segment stacked from every record lies within the domain |
| `ValueAxis.TwoMonthExample` | src/lib/Bar.js:101-180 | two months with metrics a and b stack as `[a: 0..2, b: 2..5]` and `[a: 0..1, b: 1..5]`; both extent sums are 5, so the upper extent is 5 and the domain `[0, 5.5]` |
| `Colors.ResolveColors` | src/lib/Bar.js:121-135 | a user scale iff `color` is a function, and then that function; otherwise the palette is the `scale` array when `scale` is an array, else `DEFCOLORS`, keyed by `key.metric` |
| `Colors.ColorFunctionWins` | src/lib/Bar.js:121-123 | with a colour function the resolved source does not depend on `scale`, and each segment's fill is the function of its metric name |
| `Labels.Rotated` | src/lib/Bar.js:72-74 | labels are rotated iff some measured width is strictly greater than the band width |
| `Labels.CountWiderPositive` | src/lib/Bar.js:72-74 | the filtered count of too-wide labels is positive iff some width exceeds the band |
| `Labels.TruncateLabel` | src/lib/Bar.js:90-92 | the result is `substring(0, i - 4) + "..."` where `i` is the first index whose prefix length is at least the hypotenuse |
| `Labels.TruncatedIsPrefixAndEllipsis` | src/lib/Bar.js:92 | the truncated text is the first `max(i - 4, 0)` characters (at most the whole label) followed by `"..."`, exactly `"..."` when `i <= 4` |
| `Labels.FirstReachIsThreshold` | src/lib/Bar.js:90-91 | the stopping index is unique; for a stopping index above 0 the kept prefix is shorter than it and measures below the hypotenuse; with a monotone measure exactly the indices from it on reach the hypotenuse |
| `Labels.LayOutLabels` | src/lib/Bar.js:72-94 | rotation iff some label is wider than the band; a label is truncated iff rotated and taller than the bottom margin, and is otherwise left as it is |
| `Tooltip.StackHtml` | src/lib/Bar.js:33-43 | the placeholder `"Tooltip missing!"` iff no tooltip function is given; otherwise the function's content, anchored midway across the band at the scale's pixel for the stack total |
| `Tooltip.TooltipFallback` | src/lib/Bar.js:38-41 | without a tooltip function every stack gets the same placeholder; with one the anchor lies inside the band |

## Findings

| source | as written | input that shows it | evidently intended | confidence | as-written member | corrected member |
|---|---|---|---|---|---|---|
| src/lib/Bar.js:103-105 | the extent callback loops over `key.metric.length` and reads `d[0][key.metric[i]]`, so a single (string) metric is indexed character by character | `key.metric = "sales"`, record `{sales: 5}`: the fields `"s"`, `"a"`, ... are `undefined`, the sum is NaN and the domain top NaN | for a single metric, sum that metric's own field, as the single-metric stacking branch (lines 173-178) does | medium; not executed | `ValueAxis.SingleMetricExtentIsNaN` | `ValueAxis.ExtentIsStackTotal` |

## Left out

- Scales, axes and rendering: D3's ordinal and linear scales, `rangeRoundBands` rounding, axis drawing, and the ordinal lookup that maps a metric name to a palette colour. These are a third-party library. The palette is modelled as resolved (range plus domain), not looked up.
- DOM measurement: `getBBox`, `getBoundingClientRect`, `getSubStringLength`, `getComputedStyle`, `parseInt` of the margin. Their results are inputs. A margin that parses to NaN is not modelled.
- `hypotenuse = marginBot / Math.cos(25)` is an opaque input. Floating-point arithmetic, including the `1.1` scaling, is modelled on exact reals.
- The `innerHTML` assignment: `LayOutLabels` returns each label's new text instead of updating the DOM node in place.
- Transitions, delay, easing, pointer-event wiring and the `BaseSVG` lifecycle states. `DataSet` (grouping, `findDs`, `extent`) and `Tooltip` internals are not part of this model. The extent's upper value is an input bounding every stack total. `ValueAxis.StackValues` assumes the stacking callback's values are the record's metric fields. The extent callback reads only `d[0]`, the first element of what the extent passes in; a `Record` here is that element. When a category has several rows, the source's extent counts only the first row, while the stack draws from `d.values.metric`.
- Labels.TruncateLabel: requires that some prefix of the label measures at least the hypotenuse. The source's scan has no bound and never ends otherwise. Non-termination is not represented. This happens with ordinary input: with `marginBot = 30`, a 12 px font and a full text length of 29 px, the rotated height is about 29·sin65° + 12·cos65° ≈ 31.3 > 30, so the label is truncated; but `hypotenuse ≈ 30 / 0.9912 ≈ 30.27`, and `getSubStringLength(0, i)` stays at 29 past the end of the text, so the loop at line 91 never stops.
- Labels.LayOutLabels: requires the same of every label it truncates, for the same reason.
- Labels.TruncateLabel: takes `innerHTML` to be the label's plain text. The source cuts and writes back serialized markup, so a label with an entity (`AT&T` serializes as `AT&amp;T`) is cut at a different place, and the cut may split the entity. This is not modelled.
- Labels.LayOutLabels: JavaScript strings count UTF-16 code units in `substring` and `.length`. The model's strings are sequences of Unicode scalar values, so labels outside the Basic Multilingual Plane are indexed differently.
- ValueAxis.VisitedFieldsAsWritten: `key.metric.length` and `key.metric[i]` count UTF-16 code units in the source. The model splits the metric name into Unicode scalar values.
- Stacking.StackRecord: requires `d.values.metric` to hold a value for every metric it indexes (an array for an array metric, a number for a single one). Otherwise the source reads `undefined` and draws NaN geometry, which is not modelled.
- Tooltip.StackHtml: a `tooltip` argument that is defined but not a function (the source would throw when calling it) is not modelled.
- The category axis domain (distinct dimension values) is D3's ordinal domain and is not modelled.
