# Festival ROI — a Dafny model

This project models the core of a small festival return-on-investment toolkit.

Festival events carry a cost, a revenue and an attendance. The toolkit derives
ROI, profit and cost per attendee from them, and it can:

- summarise a list of events;
- rank events by a chosen metric with a stable sort (top N descending, bottom N
  ascending);
- flag the events whose ROI is below a target;
- build the chart arrays and the JSON report document;
- load events from a CSV file, all or nothing;
- format money.

The command-line script chooses its working list the same way: the loaded or
demonstration events, filtered by a minimum attendance.

A separate sales-dashboard demo computes headline KPIs over sales rows:

- total revenue and orders;
- the average order value;
- the top channel and month, where ties go to the key seen first.

It also groups revenue by a label in first-seen order and renders an ASCII bar
chart.

Module layout, one per source file:

- `Models`, `Ranking`, `Analysis`, `Services`, `Reporting`, `Io`, `Formatting`
  and `SampleData` follow the library files.
- `Cli` holds the selection pipeline of the command-line script.
- `Dashboard` holds the demo.
- `StableSort` is Python's `sorted`: stable insertion sort, both directions.
- `Seqs`, `Text` and `Json` are shared helpers: filter, sums, digits, comma
  grouping, join/split, lexicographic order, padding, and JSON-shaped values.
- `Scenarios` states what the pipeline yields on the four sample events.

Conventions:

- Money and ratios are exact `real`; attendance and orders are `int`.
- The code that changes state step by step is written as methods, with loops where the source loops:
  - the loader's row loop;
  - the script's `main` selection, which has no loop;
  - `calculate_kpis`, `aggregate_revenue` and `render_bar_chart`.

  Each of these methods is proved against a specification function or
  predicate.
- The rest is functions with lemmas.
- The command-line script repeats `metric_value`, `sample_events` and
  `format_currency` from the library. Each is defined once here
  (`Ranking.MetricValue`, `SampleData.SampleEvents`, `Formatting.FormatCurrency`).

## Model

| member | source | states |
|---|---|---|
| Models.Roi | festival_roi/models.py:19-24 | zero when the cost is zero; otherwise ROI times cost equals revenue minus cost |
| Models.Profit | festival_roi/models.py:26-28 | profit plus cost equals revenue |
| Models.CostPerAttendee | festival_roi/models.py:30-34 | zero when attendance is zero; otherwise it times the attendance equals the cost |
| Models.RoiIsProfitPerCost | festival_roi/models.py:22-28 | with a non-zero cost, ROI is profit divided by cost |
| Ranking.MetricValue | festival_roi/ranking.py:10-16 | "profit" selects profit, "attendance" the attendance as a number, every other name ROI; defined for every name |
| Ranking.UnknownMetricRanksByRoi | festival_roi/ranking.py:12-16 | any name outside the three choices ranks exactly as "roi" |
| Analysis.Summarize | festival_roi/analysis.py:12-39 | count is the length; empty input gives the all-zero summary; total profit is revenue sum minus cost sum; total attendance is the attendance sum; averages times the count give the sums; cost per attendee is guarded by zero attendance |
| Analysis.TotalProfitIsRevenueMinusCost | festival_roi/analysis.py:24-26 | summed profit equals summed revenue minus summed cost |
| Analysis.SummarizePermutation | festival_roi/analysis.py:24-38 | permuting the events changes no field of the summary |
| Analysis.SummaryAsDict | festival_roi/analysis.py:32-39 | the dictionary has exactly the six summary keys |
| Analysis.SummaryDictRoundTrip | festival_roi/analysis.py:32-39 | reading the dictionary back gives the same summary |
| StableSort.Insert | app/services.py:33-35 | inserting keeps the list sorted in the chosen direction and adds exactly the one element |
| StableSort.Sort | app/services.py:33-35 | the result is sorted in the chosen direction and is a permutation of the input |
| StableSort.InsertKeyClass | app/services.py:33-35 | insertion puts the new element in front of all equal-key elements already present (the elements that came after it in the input) |
| StableSort.SortKeepsTies | app/services.py:40-42 | for every key value, the sorted elements with that key appear in input order |
| StableSort.SortSortedIsIdentity | app/services.py:33-35 | sorting an already sorted list returns it unchanged |
| StableSort.SortedTiesUnique | app/services.py:33-35 | two sorted permutations that keep ties in input order are equal, so the stable sort is unique |
| StableSort.SortPrefix | app/services.py:37 | every prefix of the sort is sorted, drawn from the input, and takes each tie class from its front |
| Services.Clamp | app/services.py:37 | the count lies in [0, len]: 0 for non-positive requests, len for requests at or above it, else the request |
| Services.Underperformers | app/services.py:44-49 | empty without a target; otherwise an in-order subsequence containing exactly the events with ROI below the target, with their multiplicities |
| Services.BuildChartPayload | app/services.py:68-79 | four parallel arrays of the input's length, in input order: name, ROI times 100, profit, attendance |
| Services.TopEvents | app/services.py:31-37 | length is the clamped count; a prefix of the stable descending sort; non-increasing; drawn from the input; ties in input order |
| Services.BottomEvents | app/services.py:38-42 | empty unless bottom is positive, else min(bottom, n) long; a prefix of the independent ascending sort; non-decreasing; ties in input order |
| Services.AnalyseEvents | app/services.py:19-60 | the summary of all events, the two rankings, the underperformers, the chart and the echoed target; empty input gives empty lists |
| Services.SerializeEvents | app/services.py:63-65 | one event dictionary per event in order, and the list reads back as the events |
| Reporting.EventAsDict | festival_roi/reporting.py:14-24 | exactly the seven keys, with ROI, profit and cost per attendee equal to the event's metrics |
| Reporting.EventDictRoundTrip | festival_roi/reporting.py:14-24 | reading an event dictionary back gives the event |
| Reporting.EventDicts | festival_roi/reporting.py:42-47 | one dictionary per event, same length and order |
| Reporting.EventDictsRoundTrip | festival_roi/reporting.py:42-47 | a serialised event list reads back as the same events in the same order |
| Reporting.ReportPayload | festival_roi/reporting.py:38-48 | exactly the seven report keys; title, summary, metric and target (null when absent) are carried over unchanged; the three event lists are `event_as_dict` applied to each event in order |
| Reporting.ReportRoundTrip | festival_roi/reporting.py:38-48 | re-reading the document gives back every argument, the event lists in order |
| Io.RequiredColumnsSorted | festival_roi/io.py:19-22 | the four required names are in strictly increasing order |
| Io.MissingColumns | festival_roi/io.py:19-22 | strictly sorted; contains exactly the required names the header lacks; empty iff the header has all four |
| Io.MissingColumnsMessage | festival_roi/io.py:22-23 | the fixed "CSV missing required columns: " text followed by the missing names joined with ", " |
| Io.AbsentHeaderMessage | festival_roi/io.py:20-23 | without a header the message lists attendance, cost, name, revenue |
| Io.AbsentHeaderMissesAll | festival_roi/io.py:20-22 | without a header all four names are missing, in sorted order |
| Io.RequiredColumnsJoined | festival_roi/io.py:22 | the four names join with ", " into the text the message shows |
| Io.MissingRevenueMessage | festival_roi/io.py:19-23 | a header of name, cost and attendance reports only revenue |
| Io.ConvertRow | festival_roi/io.py:26-33 | succeeds iff cost, revenue and attendance are present and parse; the event then holds the parsed values and the name |
| Io.LoadEvents | festival_roi/io.py:14-36 | missing columns fail with the sorted message; otherwise success iff every row converts, one event per row in order; a failure names the first bad row |
| Formatting.GroupedDigits | festival_roi/formatting.py:11 | non-empty and starts with a digit |
| Formatting.GroupedDigitsPlain | festival_roi/formatting.py:11 | removing the commas gives the plain decimal digits |
| Formatting.GroupedDigitsShape | festival_roi/formatting.py:11 | commas fall exactly every fourth character from the right, digits elsewhere |
| Formatting.GroupedRoundTrip | festival_roi/formatting.py:11 | the grouped digits read back as the number |
| Formatting.FormatUnsigned | festival_roi/formatting.py:11 | starts with a digit and ends with a point and exactly two digits |
| Formatting.FormatUnsignedGrouped | festival_roi/formatting.py:11 | everything before the point is the whole part, grouped in threes by commas |
| Formatting.UnsignedRoundTrip | festival_roi/formatting.py:11 | the unsigned amount reads back as its hundredths |
| Formatting.FormatAmount | festival_roi/formatting.py:11 | ends with a point and two digits; starts with a minus sign iff negative, else with a digit |
| Formatting.FormatAmountGrouped | festival_roi/formatting.py:11 | between the sign and the point stands the whole part of the magnitude, with a comma every fourth character from the right |
| Formatting.AmountRoundTrip | festival_roi/formatting.py:11 | the printed amount reads back as exactly its hundredths |
| Formatting.NegativeAmountRoundTrip | festival_roi/formatting.py:11 | a negative amount reads back through its minus sign |
| Formatting.UnsignedAmountRoundTrip | festival_roi/formatting.py:11 | a non-negative amount reads back without a sign |
| Formatting.Spacer | festival_roi/formatting.py:10 | empty for a one-character symbol, one space for any other length, the empty symbol included |
| Formatting.FormatCurrency | festival_roi/formatting.py:8-11 | starts with the symbol; a one-character symbol is followed directly by the amount, any other by one space; the amount reads back as the value |
| SampleData.SampleEvents | festival_roi/sample_data.py:12-19 | four events, each with positive cost and attendance |
| SampleData.SampleRois | festival_roi/sample_data.py:15-18 | the ROIs are 41/45, 7/13, 11/30 and 1/10 |
| SampleData.SampleRoisDecrease | festival_roi/sample_data.py:15-18 | ROI strictly decreases along the list |
| Scenarios.SampleSortedByRoi | festival_roi/sample_data.py:15-18 | the sample list is sorted by descending ROI |
| Scenarios.SampleTopByRoi | festival_roi_analysis.py:107-113 | the top three by ROI are the first three events, and top 100 yields all four |
| Scenarios.SampleUnderperformers | festival_roi_analysis.py:123-127 | against a 0.2 target only Winter Village is flagged |
| Scenarios.SampleAttendanceFilter | festival_roi_analysis.py:104-105 | filtering at 6000 attendees keeps the second and fourth events |
| Scenarios.SampleAttendanceFloor | festival_roi_analysis.py:104-105 | a floor of 6000 keeps Coastal Sounds and Winter Village |
| Scenarios.SampleAttendanceFloorTotal | festival_roi_analysis.py:104-106 | those two have 17700 attendees |
| Scenarios.SelectionAgreesWithService | festival_roi_analysis.py:106-127 | the script's summary, rankings and underperformers equal the analysis service's on the same list; summary-only empties only the rankings |
| Cli.SourceEvents | festival_roi_analysis.py:101-103 | the loaded file's events when an input path is given, otherwise the four demonstration events |
| Cli.WorkingEvents | festival_roi_analysis.py:104-105 | never longer than its source; unchanged without a positive floor; with one, only events from the source at or above the floor |
| Cli.WorkingEventsFloor | festival_roi_analysis.py:104-105 | with a positive floor, exactly the events at or above it in order; otherwise the list unchanged |
| Cli.RankLabel | festival_roi_analysis.py:161-163 | defined exactly for the three choices, mapping them to ROI, Profit and Attendance |
| Cli.Rankings | festival_roi_analysis.py:107-122 | top is the clamped prefix of the descending sort, bottom the prefix of the ascending sort taken only for a non-zero count; both empty under summary-only |
| Cli.Analyse | festival_roi_analysis.py:106-138 | summary, rankings, underperformers, and an export request only with a path, carrying the ranking metric in the metric slot |
| Cli.ChooseEvents | festival_roi_analysis.py:101-105 | fails exactly when a load fails, with its error; otherwise the loaded or sample events filtered by the floor |
| Cli.SelectEvents | festival_roi_analysis.py:97-138 | a failed load aborts with its error; otherwise the working list and everything computed from it |
| Dashboard.LabelsOf | dashboard_demo/simple_dashboard.py:79 | the label of every row, in row order |
| Dashboard.IndexOf | dashboard_demo/simple_dashboard.py:82-84 | the position of the first occurrence |
| Dashboard.FirstSeen | dashboard_demo/simple_dashboard.py:76-84 | the insertion order of the totals dictionary: one key per distinct label, so never longer than the labels (membership, distinctness and order are the three lemmas below) |
| Dashboard.FirstSeenMembers | dashboard_demo/simple_dashboard.py:82-84 | the grouped labels are exactly the labels occurring in the rows |
| Dashboard.FirstSeenDistinct | dashboard_demo/simple_dashboard.py:82-84 | no label is listed twice |
| Dashboard.FirstSeenOrder | dashboard_demo/simple_dashboard.py:82-88 | labels are listed in the order of their first row |
| Dashboard.UnseenLabelTotal | dashboard_demo/simple_dashboard.py:82-86 | a label no row carries has total zero |
| Dashboard.TallyStep | dashboard_demo/simple_dashboard.py:82-86 | adding a row to its label's total (starting a new label at zero, appended to the order) keeps the dictionary equal to the per-label sums |
| Dashboard.AddToGroup | dashboard_demo/simple_dashboard.py:79-86 | one row of the loop keeps the tally exact |
| Dashboard.AggregateRevenue | dashboard_demo/simple_dashboard.py:73-88 | one entry per distinct label in first-seen order, each paired with the revenue summed over the rows carrying it |
| Dashboard.SeriesOf | dashboard_demo/simple_dashboard.py:88 | the dictionary's items, key by key in order |
| Dashboard.TalliedSeries | dashboard_demo/simple_dashboard.py:88 | a tallied dictionary's items are the grouped labels with their totals |
| Dashboard.TotalOverCovering | dashboard_demo/simple_dashboard.py:82-86 | over distinct labels covering every row, the group totals add up to the revenue |
| Dashboard.GroupedTotalsSum | dashboard_demo/simple_dashboard.py:73-88 | the grouped totals add up to the total revenue |
| Dashboard.FirstMaxIndex | dashboard_demo/simple_dashboard.py:37 | a key with the largest value, strictly larger than every earlier key |
| Dashboard.TopKey | dashboard_demo/simple_dashboard.py:37-38 | "N/A" with no keys; otherwise a key with the largest total, listed no later than any other key with that total |
| Dashboard.TopLabelUnique | dashboard_demo/simple_dashboard.py:37-38 | the first-seen tie rule determines the top label uniquely |
| Dashboard.FirstMaxIsTop | dashboard_demo/simple_dashboard.py:37-38 | the key `max` picks from a tallied dictionary has the largest total, and the earliest label among ties |
| Dashboard.SumsStep | dashboard_demo/simple_dashboard.py:31-32 | one more row adds its revenue and orders to the totals |
| Dashboard.AddRevenue | dashboard_demo/simple_dashboard.py:33-34 | one `get(label, 0.0) + revenue` update keeps the tally exact |
| Dashboard.CalculateKpis | dashboard_demo/simple_dashboard.py:18-46 | revenue and orders are the sums; average is zero without orders, else revenue over orders; "N/A" without rows; otherwise channel and month are the top labels with the first-seen tie rule |
| Dashboard.RoundHalfEven | dashboard_demo/simple_dashboard.py:51 | within one half of the value, and even on an exact tie |
| Dashboard.DollarText | dashboard_demo/simple_dashboard.py:51 | a dollar sign, a minus sign exactly when given, no line break |
| Dashboard.DollarTextReadsBack | dashboard_demo/simple_dashboard.py:51 | after the sign come the magnitude's digits grouped in threes by commas, and they read back as the magnitude |
| Dashboard.FormatCurrency | dashboard_demo/simple_dashboard.py:49-51 | starts with "$", has a minus sign after it iff the value is negative, no line break |
| Dashboard.FormatCurrencyReadsBack | dashboard_demo/simple_dashboard.py:49-51 | after the sign stand the digits of the value rounded half to even, without its sign, grouped in threes by commas; they read back as that magnitude |
| Dashboard.FormatNumber | dashboard_demo/simple_dashboard.py:54-56 | starts with a minus sign iff the value is negative |
| Dashboard.FormatNumberReadsBack | dashboard_demo/simple_dashboard.py:54-56 | the digits after the sign are grouped in threes by commas and the text reads back as the number |
| Dashboard.NegativeNumberReadsBack | dashboard_demo/simple_dashboard.py:54-56 | a negative number reads back through its minus sign |
| Dashboard.UnsignedNumberReadsBack | dashboard_demo/simple_dashboard.py:54-56 | a non-negative number reads back without a sign |
| Dashboard.Trunc | dashboard_demo/simple_dashboard.py:101 | truncation toward zero: within one of the value, on the zero side |
| Dashboard.BarLength | dashboard_demo/simple_dashboard.py:97-101 | zero when the maximum is zero, at least one otherwise, 40 for the maximum itself and at most 40 below a positive maximum |
| Dashboard.BarLengthMonotone | dashboard_demo/simple_dashboard.py:97-101 | a larger value never gets a shorter bar under a positive maximum |
| Dashboard.SeriesMax | dashboard_demo/simple_dashboard.py:96 | bounds every value and is one of them |
| Dashboard.ChartLine | dashboard_demo/simple_dashboard.py:101-103 | with a label of at most five characters and a bar of at most forty, the line is 49 fixed columns followed by the amount |
| Dashboard.ChartLineShape | dashboard_demo/simple_dashboard.py:101-103 | the label right-aligned in five columns, " \| ", the bar padded to forty columns, a space and the amount; single line when the label is |
| Dashboard.ChartLines | dashboard_demo/simple_dashboard.py:93-105 | title and "(no data)" for an empty series, else the title plus one line per entry |
| Dashboard.ChartLinesEntry | dashboard_demo/simple_dashboard.py:99-103 | line i+1 draws entry i with its bar length (0 when the maximum is 0, at least 1 otherwise) and amount |
| Dashboard.RenderBarChart | dashboard_demo/simple_dashboard.py:91-105 | the chart lines joined by newlines, built by the appending loop |
| Dashboard.RenderedLines | dashboard_demo/simple_dashboard.py:91-105 | without newlines in title and labels, splitting the output gives back the chart lines: two, or one more than the entries |

## Left out

- The web layer (`app/routes.py`, `app/__init__.py`) is HTTP plumbing and is not modelled; `festival_roi/__init__.py` only re-exports names.
- Argument parsing and every `print` of the script's `main`; the parsed arguments are a value (`Cli.Args`). The dashboard's `render_kpi_section`, `main` and `load_data` only produce console text or a copy of a constant.
- Opening the CSV file and `csv.DictReader`: the loader receives the header and the rows as maps. Python's `float()` and `int()` on text are parameters.
- Creating the export directory, writing the file and `json.dumps`: the report is a `Json` value handed over in an export request.
- IEEE floating point: money and ratios are exact reals.
- Services.BuildChartPayload: states ROI times 100 exactly, without `round(..., 2)`.
- Formatting.FormatCurrency: takes the value as whole hundredths, so rounding a fractional float to two decimals is not modelled.
- Dashboard.FormatCurrency: rounds an exact real half to even; float representation error is not modelled.
- Dashboard.BarLength: computes `40 / max` and the product exactly; float rounding before `int()` is not modelled.
- Io.ConvertRow: a short row lacking the name cell gives the name "" where Python stores None.
- Io.LoadEvents: the error carries the offending row rather than the text "Invalid row …" built from its `repr`.
- The `JInt`/`JNumber` split only marks the fields that are always ints; number formatting inside JSON text is not modelled.
- Dashboard rows are typed records: `float()`, `int()` and `str()` of dictionary cells are not modelled.
