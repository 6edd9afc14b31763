# Moving Files: the sequential logic of `utils.py`

The moving-files application watches a source directory. At a fixed interval
it moves every file whose name matches a regular expression to a destination
directory, and it shows run statistics in a Qt window. Almost all of
`utils.py` is widget and plotting code. This project models the parts that
compute something, and proves what they promise:

- **The statistics panel** (`Statistics`). `create` fixes the text width at
  no less than 30 and the six reported properties. `formatLine` builds one
  fixed-width line `<br>key____valueunit</br>` (value and unit run together, with no space). `genText` without data joins
  the opening markup, one line per property showing `0`, and the closing
  markup. `reset` puts that text back on the label. The model is the class
  `Statistics.Statistics` with the fields `textWidth`, `properties` and
  `labelText`. `GenText` is a loop that appends lines, as in the program,
  proved equal to the specification function `NoDataText`.
- **The recent-runs bar plot** (`PlotCanvas.plotBar`). These are the integer
  computations only: the last `n` per-run counts (`runNumFiles[-n:]`), the
  run numbers `range(max(runCount-n+1, 1), runCount+1)`, and the x-axis
  limits. Python's slicing, `range`, `min` and `max` are written out,
  including `xs[-0:]`, which keeps the whole list.
- **File selection** (`getValidFiles`). This is an order-preserving filter
  over the directory listing. It keeps an entry when the pattern matches its
  base name and the entry is a regular file. The listing (glob output), the
  regular-expression match (`re.match`, anchored at the start of the name)
  and `os.path.isfile` are parameters. `os.path.basename` is modelled the
  POSIX way: everything after the last `/`.

Modules: `Basics` (`max`, `min`, an optional value), `Text` (string
repetition, joining a list of strings, `str` of an integer),
`Statistics`, `PlotWindow` and `FileSelection`.

The model follows the code in two places where a plain reading might not:

- The closing markup is `</center></code>`, in that order, as the program
  writes it.
- The value passed to `formatLine` is modelled as the text Python's `str`
  gives for an integer, minus sign included.

## Model

| member | source | states |
|---|---|---|
| `Statistics.ClampWidth` | utils.py:48 | the width is at least 30; it is the requested width when that is 30 or more, and 30 otherwise |
| `Statistics.Statistics.Create` | utils.py:47-63 | after `create` the width is the clamped request, the properties are the six defaults in order, and the label shows the no-data text |
| `Statistics.DefaultPropertiesFit` | utils.py:49-56 | every default key, with the value `0` and its unit, fits the narrowest width of 30 |
| `Statistics.FormatLine` | utils.py:73-82 | a line is `<br>` + `</br>` wrapped around max(textWidth, key+value+unit length) characters |
| `Statistics.FormatLineLayout` | utils.py:79-82 | every line starts with `<br>` and the whole key, ends with the whole value, the unit and `</br>`, and holds only `_` in between: nothing is truncated |
| `Statistics.FormatLineFits` | utils.py:79-82 | when key, value and unit fit, the text between `<br>` and `</br>` is exactly `textWidth` long: key, then textWidth-key-value-unit underscores, then value and unit |
| `Statistics.FormatLineOverflows` | utils.py:81-82 | when key, value and unit are wider than `textWidth`, a negative repeat count inserts no padding: the line is `<br>`+key+value+unit+`</br>` |
| `Statistics.DefaultLines` | utils.py:85-99 | without data there is one line per property, in property order, each showing the value `0` with that property's unit |
| `Statistics.Page` | utils.py:97-102 | the joined list opening + lines + closing starts with the opening markup and ends with the closing markup; no lines give just the two, one line gives opening + line + closing |
| `Statistics.NoDataText` | utils.py:84-102 | the no-data text starts with the opening markup and ends with the closing markup; with one property it is that property's line showing `0` between them |
| `Statistics.Statistics.GenText` | utils.py:84-102 | the loop-built list opening + lines + closing, joined, equals the no-data page for the object's width and properties |
| `Statistics.DefaultTextLayout` | utils.py:97-102 | when every property fits, the page is the opening markup, then one (textWidth+9)-character line per property with line k at offset k·(textWidth+9), then the closing markup |
| `Statistics.CreatedTextLayout` | utils.py:48-60 | the panel `create` fills has six lines; line k shows default property k with value `0`, padded to exactly `textWidth` |
| `Statistics.Statistics.Reset` | utils.py:69-71 | `reset` sets the label back to the no-data text and leaves width and properties alone |
| `Text.Repeat` | utils.py:82 | `n * "_"` has max(n, 0) characters, all `_` |
| `Text.Concat` | utils.py:102 | `reduce(lambda x, y: x + y, lines)`: a one-element list gives its element, and every part fits inside the join |
| `Text.IntText` | utils.py:78 | `str(val)` of an integer: a leading `-` exactly for negatives, then decimal digits with no leading zero; `0` renders as `"0"` |
| `Text.IntTextRoundTrip` | utils.py:78 | reading the decimal text back gives the integer again, so the rendered value loses nothing |
| `Basics.Max` | utils.py:48 | `max(a, b)` is one of the two and no smaller than either |
| `Basics.Min` | utils.py:192 | `min(a, b)` is one of the two and no greater than either |
| `Basics.Option.GetOr` | utils.py:181-182 | `data.get(key, default)` is the stored value when the key is present and the default otherwise |
| `PlotWindow.SliceFrom` | utils.py:181 | Python's `xs[start:]` is a suffix of `xs`; its length is max(len-start, 0) for start ≥ 0 and min(-start, len) for negative start |
| `PlotWindow.LastRuns` | utils.py:181 | `runNumFiles[-n:]` is a suffix in original order; for n ≥ 1 its length is min(n, len); for n = 0 it is the whole list |
| `PlotWindow.Range` | utils.py:183 | `range(lo, hi)` is the max(hi-lo, 0) consecutive integers starting at lo |
| `PlotWindow.RunNumbers` | utils.py:183 | the run numbers are consecutive, end at `runCount`, lie in 1..runCount, number min(n, runCount) for runCount ≥ 0 and n ≥ 1, and, for n ≥ 1, are empty exactly when runCount ≤ 0 |
| `PlotWindow.SeqMin` | utils.py:192 | `min(runNo)` is an element no greater than any other |
| `PlotWindow.SeqMax` | utils.py:193 | `max(runNo)` is an element no smaller than any other |
| `PlotWindow.XLimits` | utils.py:192-193 | the limits are (0, 2) with no bars; otherwise one below the smallest and one above the largest run number, so every bar lies strictly inside |
| `PlotWindow.PlotBar` | utils.py:177-194 | the bars drawn are the last-n counts (`LastRuns`) at the run numbers (`RunNumbers`), a missing key reading as `[]` or 0; the axis limits are `XLimits` of those numbers, xmin < xmax, and every bar lies strictly between them |
| `PlotWindow.ConsecutiveLimits` | utils.py:192-193 | for consecutive run numbers the limits are first-1 and last+1 |
| `PlotWindow.WindowLimits` | utils.py:183-193 | for runCount ≥ 1, n ≥ 1: the window has min(n, runCount) numbers from max(runCount-n+1, 1) to runCount, and the axis runs from one below the first to one above the last |
| `PlotWindow.BarsMatchRuns` | utils.py:181-189 | when the per-run list has one entry per run, heights and positions have the same length min(n, runs), and bar i's height is the count of run number runNo[i] |
| `PlotWindow.EmptyDataPlot` | utils.py:141-153 | the first drawing, from the empty dictionary, has no bars and axis limits (0, 2) |
| `FileSelection.Basename` | utils.py:219 | `os.path.basename` is the suffix of the path after its last `/`, and contains no `/` |
| `FileSelection.SelectionTest` | utils.py:219-220 | an entry passes exactly when the pattern matches its base name and it is a regular file, so nothing that is not a regular file passes |
| `FileSelection.Filter` | utils.py:217-221 | the selection is no longer than the listing and every entry in it passes the test |
| `FileSelection.FilterStep` | utils.py:218-221 | one more listing entry adds itself to the selection exactly when it passes the test |
| `FileSelection.FilterMembership` | utils.py:218-221 | an entry is selected iff it is in the listing and passes the test |
| `FileSelection.FilterIsSubsequence` | utils.py:218-221 | the selection is an order-preserving subsequence of the listing |
| `FileSelection.SubsequenceLength` | utils.py:215-222 | a subsequence is never longer than the list it is taken from |
| `FileSelection.FilterKeepsPassing` | utils.py:218-221 | a listing whose every entry passes is selected whole |
| `FileSelection.FilterIdempotent` | utils.py:215-222 | selecting again from a selection changes nothing |
| `FileSelection.SelectionFacts` | utils.py:215-222 | the selection holds exactly the listed entries whose base name matches and that are regular files, in listing order, and is no longer than the listing |
| `FileSelection.GetValidFiles` | utils.py:215-222 | the loop that appends to `matching` returns the specified filter: exactly the matching regular files of the listing, in listing order |

## Left out

- `app.py`: the Qt main window, menus, input form and style switching are presentation. It also calls `Statistics.show`, which `utils.py` does not define.
- `About`, `LogBox` and the drawing calls of `Plots` and `PlotCanvas` (`hist`, `bar`, axis labels, `tight_layout`, `draw`) are rendering through Qt and matplotlib.
- The Qt widget handed to `create` (layout, `QLabel`) is left out; the label's text is the field `labelText`.
- `Statistics.update(data)` and the data branch of `genText` are left out. They compute float averages and render them with `round(val, 2)`, and the model has no floating point. That branch also divides `moved / run`, which fails when the run count is 0.
- `Text.Concat` returns the empty string for an empty list, where Python's `reduce` without an initial value raises `TypeError`. `genText` never joins an empty list: it always holds at least the opening and closing markup.
- The default arguments `textWidth=30` (`create`), `val=0` and `unit=""` (`formatLine`) and `n=5` (`plotBar`) are not modelled as defaults; every call passes them explicitly.
- `formatLine`'s float branch (`str(round(val, 2))`) is left out for the same reason. The model takes the rendered value as text, with `Text.IntText` giving the integer rendering.
- `checkRegex` and `validPath` only wrap `re.compile`, `os.path.isdir` and `os.access`. They are foreign-library behaviour with no logic of their own.
- Regular-expression semantics, `os.path.isfile`, and the contents and order of the `glob` listing are left out. They are the parameters `nameMatches`, `isFile` and `allFinds` of `FileSelection.GetValidFiles`. Glob's omission of dot-files is part of the listing it is given.
- `FileSelection.Basename` follows POSIX `os.path.basename` only. The Windows variant, which also splits at `\` and drive letters, is not modelled.
- `plotHist`: its bin count `min(len(fileSizes)//2 + 1, 30)` only configures a histogram of float data.
- The periodic scan, move and accumulate cycle (timer, relocation, run statistics ledger) is not in `utils.py` or `app.py`, so it is not part of this model.
- Python strings count code points; the model's `string` is a sequence of Unicode characters, so lengths agree.
