# PRTG bandwidth report generators, modelled in Dafny

The repository holds four generations of one script. Each asks a PRTG
monitoring server for the sensors tagged `kpi_bandwidth`, fetches every
sensor's historic traffic data, and writes a bandwidth report. The report has
one row per sensor: location, peak traffic at a percentile, choke point,
limits and utilisations. It ends with a "Core Utilization Summary" that
groups the Core sensors by segment and relates bandwidth to capacity.

- `old.py` writes the report as CSV rows.
- `main.py` writes it into an openpyxl workbook with two sheets. One row per
  sensor goes on the main sheet, the segment table on the summary sheet, and
  edge sensors get a blue fill.
- `kpi_report_bandwidth.py` adds a time-window table. Besides the main fetch,
  it makes two supplementary fetches per sensor. It also has a pandas
  summary function (`summary_out`).
- `kpi_report_bandwidth_opt.py` fetches once per sensor. It sorts every
  sample into a week by how many days back it lies, copies the sample into a
  global dictionary and parses it at once. It keeps a global list of the
  Core segments already written.

The model is one module per concern:

| File | Module | What it models |
|---|---|---|
| py.dfy | `Py` | Python values, exceptions and true division |
| pystr.dfy | `PyStr` | the string built-ins: `split()`, `in`, `split('=')`, `re.sub`, `int()`, `float()`, `str()` |
| tags.dfy | `Tags` | the tag parser `extract_tags`, in its strict form (raises on a malformed token) and its tolerant form (turns one into `edge`) |
| traffic.dfy | `Traffic` | the three `normalize_traffic` variants |
| windows.dfy | `Windows` | the window table and the day-offset ladder |
| rows.dfy | `Rows` | the sensor filter and the cells of one report row |
| segments.dfy | `Segments` | the segment aggregation and `summary_out` |
| sheet.dfy | `Sheet` | the workbook as cell maps |
| oldreport.dfy | `OldReport` | old.py as a whole |
| mainreport.dfy | `MainReport` | main.py as a whole |
| kpireport.dfy | `KpiReport` | kpi_report_bandwidth.py as a whole |
| optreport.dfy | `OptReport` | kpi_report_bandwidth_opt.py as a whole |

**How loops and state are modelled.**

- Every loop of the scripts is a method with a loop.
- Each method is proved equal to a specification function on values. That
  function is the loop's meaning; lemmas prove its properties.
- Mutable state is a class: the CSV file (`OldReport.CsvFile`), the workbook
  (`Sheet.Workbook`), and opt's globals `prtgDataDict`, `kpi_seg_arr` and
  the workbook (`OptReport.Report`).
- The methods of those classes state their whole new state through
  `modifies` and `old`.

**Inputs the model takes as parameters:**

- HTTP responses become a function from a sensor (and, for kpi, a date
  range) to a status and the decoded `histdata`.
- `math.ceil(numpy.percentile(xs, p))` is a function `pct` defined on every
  non-empty series.
- "Today" is day 0. Opt's samples carry their distance in days from today.
- The iteration order of the Python `set` of segments is a sequence `order`
  that lists each segment once.

## Model

| member | source | states |
|---|---|---|
| Py.Div | old.py:253-258 | true division raises ZeroDivisionError exactly for a zero divisor; otherwise the quotient times the divisor is the dividend |
| PyStr.WordLen | old.py:119 | the first token of `split()` ends at the first whitespace character (or at the end) and holds no whitespace; whitespace is every character `str.isspace()` accepts, Unicode spaces included |
| PyStr.Split | old.py:119 | every token of `tags.split()` is non-empty and free of whitespace |
| PyStr.SplitJoinSpace | old.py:119 | splitting the space-joined tokens gives back exactly those tokens |
| PyStr.SplitAtSpace | old.py:119 | a word followed by any whitespace character, ASCII or Unicode, is the first token of `split()`, and the rest is split on its own |
| PyStr.SplitNoBreakSpace | old.py:119 | a tag string whose two tokens are separated by U+00A0 splits into those two tokens, as Python's `split()` does |
| PyStr.ContainsAt | old.py:112 | the `property_string in a` filter holds exactly when the target occurs at some position of the token |
| PyStr.ContainsChar | old.py:112 | every character of a contained string occurs in the container |
| PyStr.Lacks | old.py:112 | a token missing one of the target's characters does not contain the target |
| PyStr.Count | old.py:114 | the separator count is 0 exactly when the separator is absent |
| PyStr.SplitOn | old.py:114 | `s.split('=')` has one more part than `s` has separators, and no part holds the separator |
| PyStr.SplitOnJoin | old.py:114 | joining the parts of `s.split(c)` with `c` gives `s` back |
| PyStr.SplitOnNoSep | old.py:114 | a string without the separator splits into itself alone |
| PyStr.SplitOnSep | old.py:114 | a separator-free head followed by the separator splits off as the first part |
| PyStr.JoinOnSplit | old.py:114 | splitting the join of separator-free parts gives the parts back |
| PyStr.KeyValue | old.py:114 | `key, value = token.split('=')` succeeds exactly when the token holds one '='; then the token is key + "=" + value, and neither part holds '=' |
| PyStr.KeyValueOf | old.py:114 | a key and value without '=' are recovered from `key=value` |
| PyStr.ReplaceHash | old.py:169 | `re.sub("#", " ", s)` keeps the length and turns each '#' into a space, leaving every other character |
| PyStr.SepIndex | old.py:163 | returns the position of the first `" ("` at or after `j`, or the length when there is none |
| PyStr.DeviceNamePrefix | old.py:163 | `device.split(' (')[0]` is a prefix of the label that ends at the first `" ("`, and is the whole label when there is none |
| PyStr.Pow10 | kpi_report_bandwidth_opt.py:407-420 | the decimal scale used by `float()` is positive |
| PyStr.NatToString | old.py:136 | `str(n)` of a natural number is a non-empty string of digits |
| PyStr.NatToStringValue | old.py:136 | the digits of `str(n)` read back as `n` |
| PyStr.ParseIntToString | old.py:136 | `int(str(n)) == n` for every integer |
| PyStr.IntToStringDigit | kpi_report_bandwidth.py:49 | `str(n)` is the single digit `d` exactly when `n == d` |
| Tags.FilterStrictErrSticky | old.py:113-115 | once a kept token fails to split, the filter's result is that failure |
| Tags.ExtractStrictErrSticky | old.py:121-122 | once a filter fails, `extract_tags` raises that exception |
| Tags.FilterTagsStrict | old.py:102-116 | the `filter_tags` loop computes the strict filter specification |
| Tags.ExtractTagsStrict | old.py:94-124 | the strict `extract_tags` loop over the four targets computes its specification |
| Tags.FilterStrictFails | old.py:113-115 | the strict filter raises exactly when some kept token is malformed, and then raises ValueError |
| Tags.ExtractStrictFails | old.py:94-124 | strict `extract_tags` raises exactly when a token kept for some target is malformed, always with ValueError |
| Tags.FilterStrictKeys | old.py:102-116 | the keys of a successful filter are exactly the keys split off kept tokens, each with a value that a kept token supplies |
| Tags.ExtractStrictKeys | old.py:94-124 | the keys of a successful parse are exactly those split off tokens kept for some target |
| Tags.FilterStrictLastWins | old.py:115 | the last kept token carrying a key decides the key's value |
| Tags.FilterTagsTolerant | main.py:210-218 | the tolerant `filter_tags` loop, which catches the failed split and sets `edge`, computes its specification |
| Tags.ExtractTagsTolerant | main.py:193-226 | the tolerant `extract_tags` loop over the five targets computes its specification |
| Tags.FilterTolerantKeys | main.py:210-218 | every key of the tolerant filter comes, with its value, from a kept token, or is `edge: True` from a malformed kept token; every supplied key is present; a malformed kept token always gives `edge` |
| Tags.ExtractTolerantKeys | main.py:220-226 | the same over all five targets |
| Tags.StrictTolerantAgree | main.py:193-226 | where the strict parser succeeds, the tolerant one with the same targets gives the same dictionary |
| Tags.FilterStrictTolerantAgree | main.py:210-218 | the same for a single filter |
| Tags.UpTokenMatchesNoTarget | main.py:200 | the token `kpi_trafficdirection=up` contains none of the target names |
| Tags.NotSuppliedUp | main.py:200 | no token supplies `kpi_trafficdirection: up` for a list of the tolerant targets |
| Tags.StrictNeverUp | old.py:182 | after the strict parse, `properties.get('kpi_trafficdirection') == 'up'` never holds |
| Tags.TolerantNeverUp | main.py:287 | after the tolerant parse, the same test never holds |
| Tags.BareEdgeFilters | main.py:216-217 | each of the five filters applied to the single token `edge` gives the empty dictionary, except the `edge` filter, which gives `edge: True` |
| Tags.BareEdge | main.py:193-226 | a bare `edge` tag yields exactly `{edge: "True"}` |
| Tags.DocumentedExample | old.py:97-98 | the tag string given as the example in the documentation of `extract_tags` parses to the dictionary that documentation describes |
| Traffic.Trunc | main.py:186 | `int(x)` of a float truncates toward zero |
| Traffic.SkipErrSticky | old.py:89-91 | once a sample has raised, the whole loop raises that exception |
| Traffic.NormalizeSkip | old.py:83-92 | the `normalize_traffic` loop of old.py and kpi computes its specification |
| Traffic.SkipOutcome | old.py:89-91 | the loop returns exactly when every sample is usable; otherwise it raises what the first unusable sample raises (KeyError for a missing channel, TypeError for a non-empty string) |
| Traffic.BlankCount | old.py:90 | no more samples are skipped as blank than there are samples |
| Traffic.SkipLength | old.py:88-92 | one value per non-blank sample |
| Traffic.NumericIndicesEnumerate | old.py:89-91 | the numeric samples' positions are listed strictly increasing, and every numeric sample is listed |
| Traffic.SkipScaledAt | old.py:89-91 | the m-th value is 0.000008 times the reading of the m-th numeric sample |
| Traffic.SkipInOrder | old.py:88-92 | the values come out in input order, one per numeric sample, each scaled by 0.000008 |
| Traffic.NormalizePadded | main.py:177-191 | main.py's `normalize_traffic` loop, which never raises, computes its specification |
| Traffic.PadOneShape | main.py:184-190 | each sample adds one or two values, the last of them 1; it adds two exactly when its reading is a number or a non-empty integer string |
| Traffic.PaddedLength | main.py:182-191 | n samples give between n and 2n values; the list is empty only for no samples and otherwise ends in 1 |
| Traffic.PaddedAllNumeric | main.py:182-191 | with every sample numeric, the list alternates each sample's truncated, scaled reading with the padding 1 |
| Traffic.PaddedNoReadings | main.py:182-191 | samples that have no reading or a blank one give all ones, one per sample |
| Traffic.ScaleField | kpi_report_bandwidth_opt.py:174-186 | opt's `normalize_traffic` raises exactly for an unusable sample. A blank sample returns `[]` unchanged; a numeric one has its field replaced by the scaled value, which is also the one returned element |
| Windows.TimeWindowFrames | kpi_report_bandwidth.py:48-79 | a window exists exactly when `str(id)` is "0" to "3"; any other id takes the "Invalid arguments" branch |
| Windows.IntWindows | kpi_report_bandwidth.py:56-77 | an integer id names a window exactly when it is 0..3. Window d then reaches from 14 + 7d days back to 1 day (d = 0) or 7d days back |
| Windows.IntStrAgree | kpi_report_bandwidth.py:49 | because ids are compared after `str()`, the int d and the string "d" give the same window |
| Windows.WindowShape | kpi_report_bandwidth.py:56-67 | every window lies in the past and ends after it starts; window 0 is 13 days wide and the others 14 |
| Windows.WindowSteps | kpi_report_bandwidth.py:56-67 | each window starts one week further back than the one before |
| Windows.Classify | kpi_report_bandwidth_opt.py:275-297 | the date ladder yields weeks 0..3 only |
| Windows.ClassifyExact | kpi_report_bandwidth_opt.py:275-297 | the ladder agrees, in both directions, with an independent table. Future dates and dates more than 28 days back are rejected; 0-6 days back is week 0, 22-28 week 1, 15-20 week 2 and 8-13 week 3; days 7, 14 and 21 are dropped |
| Windows.ClassifyCovers | kpi_report_bandwidth_opt.py:280-297 | within 0..28 days, only days 7, 14 and 21 fall through to the `else: pass` |
| Windows.SupplementaryWindows | kpi_report_bandwidth.py:306-307 | the supplementary loop queries window ids 1 and 2, in that order, each resolved through the table |
| Rows.FirstMatch | old.py:62-64 | it finds the first sensor with the objid, or proves that none has it |
| Rows.GetKpiSensorIds | old.py:61-66 | the sensor-id branch of `get_kpi_sensor_ids` computes its specification |
| Rows.SensorIdsFilter | old.py:61-66 | with `--sensorid` set, the result is the singleton of the first matching sensor, or None exactly when no sensor matches |
| Rows.Visited | old.py:146 | iterating the None an unmatched filter returns raises TypeError; a raised error passes through |
| Rows.LocationCell | old.py:167-171 | the Location cell is the site id with '#' turned into spaces, or 'NA' when the tag is absent or empty |
| Rows.TagCell | old.py:200-216 | a copied tag cell is the tag's text, or 'NA' when the tag is absent or empty |
| Rows.IntTagCell | main.py:316-325 | main.py's `int(properties[key])` cell raises ValueError exactly for a present tag that is not an integer; an absent tag gives 'NA' |
| Rows.MaxCell | old.py:180-193 | Max Traffic is 'NA' with `max_traffic = 0` for an empty series; otherwise both are the percentile |
| Rows.UtilCell | old.py:218-230 | the utilisation cell is 'NA' exactly for an absent tag. It raises exactly for a present tag that is not an integer (ValueError) or is zero (ZeroDivisionError); otherwise the cell times the limit is `max_traffic` |
| Rows.IsCore | old.py:195 | `"Core" in properties.get('kpi_seg')` raises TypeError exactly when the tag is absent, and otherwise is the substring test |
| Rows.CoreRecordOf | old.py:195-198 | a record is appended exactly for a Core segment; it holds the segment, `max_traffic` and the `kpi_cktmaxlimit` tag, or None |
| Rows.OldCellsLayout | old.py:165-230 | old.py's row has 7 cells, or 9 with `--debug`, in header order |
| Rows.OldCellsOutcome | old.py:195-230 | old.py's row raises exactly when `kpi_seg` is absent (TypeError), or when a present choke or circuit limit is not a non-zero integer. Otherwise it appends a record exactly for a Core segment |
| Rows.EmptySeriesUtilisation | old.py:181-221 | an empty series shows 'NA' as Max Traffic, yet a present non-zero limit still gives utilisation 0 |
| Rows.OldRowInbound | old.py:182-193 | old.py always reads the inbound series |
| Rows.MainCellsLayout | main.py:275-339 | main.py's row has 7 cells in header order, with the limits as `int()`; the edge flag is the truthiness of `edge` |
| Rows.MainCellsOutcome | main.py:302-339 | main.py's row raises exactly when `kpi_seg` is absent (TypeError), or when a present limit is not an integer or is zero. Otherwise it has a record exactly for a Core segment |
| Rows.MainMaxNA | main.py:287-300 | with padded series, Max Traffic is 'NA' exactly for a sensor without samples |
| Segments.LimitValue | old.py:252 | `int(data['limit'])` raises TypeError for a missing tag and ValueError for a non-integer, and otherwise parses the tag |
| Segments.Matching | old.py:249-250 | the records selected for a segment come from the list and carry that segment |
| Segments.GroupSumErrSticky | old.py:249-252 | once a record has raised, the inner loop raises that exception |
| Segments.SumSegment | old.py:247-252 | the inner accumulation loop computes its specification |
| Segments.GroupSumOk | old.py:249-252 | the inner loop succeeds exactly when every record of the segment has an integer limit |
| Segments.GroupSumErr | old.py:252 | the inner loop raises only what `int(data['limit'])` raises |
| Segments.GroupSumSums | old.py:247-252 | on success each accumulator is its seed plus the column's sum over the segment's records |
| Segments.Step | old.py:246-256 | an iteration succeeds exactly when the sums succeed and the limit sum is non-zero, and otherwise raises ZeroDivisionError or the inner loop's exception. On success it appends the segment's row and adds its sums to the totals |
| Segments.SegmentRowsErrSticky | old.py:246-256 | once an iteration has raised, the outer loop raises that exception |
| Segments.DoneRowsOk | old.py:246-256 | when the outer loop completes, the rows it wrote are all of its rows |
| Segments.DoneRowsAt | old.py:246-256 | when segment `j` is the first to raise, the rows written are exactly those of the segments before it |
| Segments.SummarizeSegments | old.py:243-256 | the outer loop computes its specification |
| Segments.SegmentRowsOk | old.py:246-256 | the outer loop succeeds exactly when every segment's sums succeed with a non-zero limit |
| Segments.SegmentRowsTotals | old.py:243-256 | one row per segment, and each running total is the seed plus the rows' column sum |
| Segments.SegmentRowsAt | old.py:246-256 | row i is the row of the i-th segment iterated: its name, its seeded sums and their ratio |
| Segments.CountedOnce | old.py:238-252 | with distinct segments, a record's amount is counted once, for its own segment |
| Segments.PartitionTotal | old.py:238-252 | summing the per-segment sums over an enumeration of the segments gives the sum over all records: grouping loses and double-counts nothing |
| Segments.RowTotalPerSegment | old.py:246-256 | the rows summed column-wise are the per-segment sums plus one seed per row |
| Segments.TotalsOverAllRecords | old.py:243-256 | when the segment set is enumerated, each running total is the column's sum over all records plus one seed per row and one for the start |
| Segments.AggregateSegments | old.py:238-259 | the aggregation (set, loop and final division) computes its specification |
| Segments.EnumerationSize | old.py:238-241 | an enumeration of the segment set without repetitions is as long as the set |
| Segments.SegmentRowsCover | old.py:238-256 | one row per distinct segment; the rows name exactly the segments in the records, each once |
| Segments.AggregateTotals | old.py:243-259 | a successful aggregation keeps the loop's rows; its totals are the bandwidth and limit sums over all records, and the capacity total is non-zero |
| Segments.AggregateSaturation | old.py:258 | the Total saturation times the capacity total is the bandwidth total |
| Segments.AggregateEmpty | old.py:258 | with no Core record, the Total division `0 / 0` raises ZeroDivisionError |
| Segments.MissingLimitFails | old.py:252 | a Core record without `kpi_cktmaxlimit` makes the aggregation raise |
| Segments.SeedIsMinusNineteen | kpi_report_bandwidth.py:277-283 | the accumulators' start value `1*10^(-25)` is `(1*10) XOR (-25)`, which is -19 |
| Segments.KpiLoopErrSticky | kpi_report_bandwidth.py:281-301 | once an iteration of `summary_out` has raised, the loop raises that exception |
| Segments.SummaryOut | kpi_report_bandwidth.py:271-301 | the `summary_out` loop computes its specification: the segment and Total row pairs, or the exception that ends it |
| Segments.KpiLoopAcc | kpi_report_bandwidth.py:277-291 | `summary_out` runs old.py's outer loop with seed -19 and emits one pair of rows per segment |
| Segments.KpiSummaryRows | kpi_report_bandwidth.py:281-301 | row i names the i-th segment. Its sums are -19 plus the segment's sums; its Total row's MaxCapacity repeats the bandwidth total |
| Sheet.PlaceRowWritten | main.py:351-354 | a row written cell by cell from column `col` holds element j in column col + j |
| Sheet.PlaceRowKeeps | main.py:351-354 | every cell outside the written span keeps its old content |
| Sheet.PlaceRowCells | main.py:351-354 | the whole row write: the span's cells and nothing else change |
| Sheet.PutCell | kpi_report_bandwidth_opt.py:122-137 | the opt writers leave the sheet alone for `''` and otherwise set exactly the one cell |
| Sheet.Workbook.constructor | kpi_report_bandwidth_opt.py:524-530 | a new workbook has two empty sheets and no fills |
| Sheet.Workbook.WriteXlsx | main.py:244-246 | `write_XLSX` sets one main-sheet cell and changes nothing else |
| Sheet.Workbook.WriteXlsxSeg | main.py:248-250 | `write_XLSX_seg` sets one summary cell and changes nothing else |
| Sheet.Workbook.WriteToSheet | kpi_report_bandwidth_opt.py:122-130 | `writeToSheet` skips `''` and otherwise sets one main-sheet cell |
| Sheet.Workbook.WriteToSummary | kpi_report_bandwidth_opt.py:132-137 | `writeToSummary` skips `''` and otherwise sets one summary cell |
| Sheet.Workbook.Fill | main.py:343 | the blue fill is added to one main-sheet cell |
| Sheet.Workbook.WriteMainRow | main.py:351-354 | the `while i <= len(out_array)` loop puts element j of the row in column col + j and changes nothing else |
| Sheet.Workbook.WriteSummaryRow | main.py:385-388 | the segment write loop puts its cells in consecutive summary columns and changes nothing else |
| Sheet.Workbook.FillRow | kpi_report_bandwidth_opt.py:448-454 | the `while edge_count <= last` loop adds the fill to exactly columns 1..last of the row, and to nothing else |
| OldReport.CsvFile.constructor | old.py:143 | the output file starts empty |
| OldReport.CsvFile.OutCsv | old.py:71-81 | `out_csv` with mode 'w' truncates and writes the row; with 'a' it appends |
| OldReport.Insert | old.py:140-141 | `list.insert(i, x)` puts x at i and shifts the rest right by one |
| OldReport.BuildHeaders | old.py:136-141 | the header row raises ValueError for a non-integer `--percentile`. Otherwise it is the header list, with Device and Device id after Location under `--debug` |
| OldReport.HeadersLayout | old.py:136-141 | the header row has 8 columns (10 with debug), from Location to Action; Max Traffic names the percentile |
| OldReport.RowUnderHeaders | old.py:136-232 | each row cell sits under its header, and the row is one cell short of the headers: the Action column stays empty |
| OldReport.OldPassCrashSticky | old.py:146-232 | once a row has raised, the script ends with that exception |
| OldReport.SensorLoop | old.py:146-232 | the sensor loop computes its specification: the file's rows, `summary_data`, and the exception that ends the script |
| OldReport.VisitSensor | old.py:153-232 | one iteration skips a failed fetch. It ends the script on a row that raises, and otherwise appends the row and its record |
| OldReport.OldPassComplete | old.py:146-232 | the loop completes exactly when every fetched sensor's row can be built. The file then gains those rows in order, and `summary_data` holds their records |
| OldReport.OldPassCrash | old.py:146-232 | a crash is the exception of the first fetched row that raises; the rows of the sensors before it stay in the file |
| OldReport.OldSummaryCore | old.py:195-198 | every record in `summary_data` names a Core segment |
| OldReport.OldRowCore | old.py:195-198 | a row's record names a Core segment |
| OldReport.SegmentLines | old.py:256 | one CSV row per segment row, `[segment, bandwidth, limit, saturation]` |
| OldReport.WriteSummary | old.py:235-259 | the summary writes the head rows, one row per segment and the Total row; on an exception the file holds the head rows and the rows of the segments summed before the one that raised (`SummaryFile`) |
| OldReport.WriteSegmentRows | old.py:246-256 | the outer loop writes exactly the rows of the iterations that completed, and on an exception the next segment is the one that raised |
| OldReport.WriteSegment | old.py:247-256 | one iteration writes its segment's row, or nothing when it raises |
| OldReport.OldTotalLine | old.py:258-259 | the Total row holds the bandwidth and limit sums over all records and their exact ratio; the summary has one row per distinct segment |
| OldReport.SensorsAndSummary | old.py:146-259 | the sensor rows stay at the front of the file; a crash ends the script before the summary, and without a crash the summary is aggregated from `summary_data` and the file is the loop's rows followed by the summary's head rows, segment rows and Total row (or the partial summary on an exception) |
| OldReport.OldPassKeeps | old.py:146-232 | rows already in the file stay in front of the loop's rows |
| OldReport.RunOld | old.py:128-259 | whole old.py: a bad `--sensorid` or `--percentile` raises before anything is written, and an unmatched sensor id leaves only the header row. Otherwise the header row comes first; a row's exception ends the script with that exception and leaves the header and the earlier rows, and without one the file is the header row, the loop's rows, then the summary part, complete or up to the segment that raised |
| MainReport.XlsxBuild | main.py:16-80 | `xlsx_build` writes the two header rows and `Total: ` in A5 |
| MainReport.HeaderCells | main.py:69-77 | on a fresh workbook, header i stands in column i + 1 of row 1 on each sheet, and row 1 of the main sheet has no other cells |
| MainReport.Outcomes | main.py:254-260 | one outcome per sensor visited |
| MainReport.MainPassCrashSticky | main.py:253-357 | once a row has raised, the script ends with that exception |
| MainReport.SensorLoop | main.py:253-357 | the sensor loop computes its specification: `row_index`, `summary_data`, the exception, the main sheet and the fills |
| MainReport.VisitSensor | main.py:260-357 | one iteration skips a failed fetch. It ends on a row that raises, and otherwise fills an edge row, writes the row and advances `row_index` |
| MainReport.WriteSensorRow | main.py:342-355 | the edge fill on columns 1..5 for an edge sensor, then the row from column 1 |
| MainReport.VisitCrashed | main.py:253-357 | after a crash nothing changes any more |
| MainReport.VisitSkip | main.py:356-357 | a failed fetch changes nothing, and a row that raises ends the script with its exception |
| MainReport.VisitWrite | main.py:351-355 | a fetched row lands in columns 1..len(row) of `row_index`, which then advances |
| MainReport.VisitKeep | main.py:351-355 | an iteration leaves every cell outside the current row alone |
| MainReport.VisitFill | main.py:302-349 | an edge row gets the fill on columns 1..5, and no other cell does; the record is appended to `summary_data` |
| MainReport.MainRowFlags | main.py:302-349 | the edge flag is the truthiness of the `edge` property; a record names a Core segment |
| MainReport.MainPassOutcome | main.py:253-357 | the loop completes exactly when every fetched sensor's row can be built |
| MainReport.MainPassCounts | main.py:253-355 | without a crash, `row_index` ends at 2 plus the number of fetched sensors, and every record belongs to some fetched row |
| MainReport.MainSummaryCore | main.py:302-305 | `summary_data` holds only Core segments |
| MainReport.MainPassRowOf | main.py:253-355 | the k-th fetched sensor's row stands in row 2 + (fetched sensors before it) |
| MainReport.MainPassFills | main.py:342-349 | fills land only on columns 1..5 of rows the loop has already used |
| MainReport.WriteSegments | main.py:363-401 | the segment part computes the aggregation. On success it writes the segment rows and then the row-5 copy of the last segment; on an exception it leaves the rows of the segments summed before the one that raised (`SegmentsSheet`) |
| MainReport.WriteSegmentRows | main.py:372-389 | the outer loop writes row 2 + i for each completed segment, and on an exception the next segment is the one that raised |
| MainReport.WriteSegment | main.py:373-389 | one iteration writes its row's first three cells, or nothing when it raises |
| MainReport.SegmentSheetRow | main.py:385-389 | segment row i lands in row 2 + i, columns 1..3, as name, bandwidth and limit |
| MainReport.SegmentSheetColumns | main.py:385-388 | `seg_col_index < len(segment_list)` never reaches column 4, so the saturation is never written |
| MainReport.TotalRowIsLastSegment | main.py:397-401 | the "Total" row B5..D5 holds the last segment's name, bandwidth and limit, not the totals |
| MainReport.RunMain | main.py:253-401 | whole main.py: a non-integer or unmatched `--sensorid` raises (ValueError, TypeError); otherwise a row's exception ends the run, and without one the result is the aggregation of the `summary_data` the loop collected under the header row. The final workbook is stated in every case: the header rows, the main sheet and fills the sensor loop leaves, and, after a complete loop, the segment rows and row 5 of the summary sheet (or the rows before the segment that raised) |
| KpiReport.Then | kpi_report_bandwidth.py:459 | nothing runs after a fetch that ended the script; otherwise records accumulate in order |
| KpiReport.ExtraChokeUtilCalc | kpi_report_bandwidth.py:305-365 | `extraChokeUtilCalc` appends the records of windows 1 and 2, stopping at an exception or `exit(1)` |
| KpiReport.FramePassCrashSticky | kpi_report_bandwidth.py:368-468 | once a sensor has ended the script, nothing more happens |
| KpiReport.SensorsFrameCall | kpi_report_bandwidth.py:368-468 | `sensorsFrameCall` computes its specification: `i`, `summary_data` and the exception |
| KpiReport.VisitSensor | kpi_report_bandwidth.py:370-468 | one sensor: the main fetch, then, unless that ended the script, the window fetches and `i += 1` |
| KpiReport.ExtraQueries | kpi_report_bandwidth.py:306-313 | the supplementary loop asks only for windows (-21, -7) and (-28, -14) |
| KpiReport.FetchEmitRecords | kpi_report_bandwidth.py:314-365 | a non-200 fetch ends with `exit(1)`. A fetch that does not end the script parsed the tags, found `kpi_seg` and appended one record exactly for a Core segment; each record carries the segment and `kpi_cktmaxlimit` |
| KpiReport.WindowEmitRecords | kpi_report_bandwidth.py:305-350 | a window fetch appends only the sensor's Core records, and one when it completes for a Core sensor |
| KpiReport.ExtraRecords | kpi_report_bandwidth.py:306-350 | the first n windows append only the sensor's Core records, n of them when none raised for a Core sensor |
| KpiReport.SensorEmitRecords | kpi_report_bandwidth.py:370-461 | a non-200 main fetch ends with `exit(1)` before anything is appended. Otherwise a sensor appends three records for a Core segment (none otherwise), and only its own Core records |
| KpiReport.FramePassOutcome | kpi_report_bandwidth.py:368-468 | the loop completes exactly when no sensor's fetches end the script |
| KpiReport.FramePassShape | kpi_report_bandwidth.py:368-468 | after a full pass, `i` is 5 plus the number of sensors, and the records extend the initial ones with the sensors' records |
| KpiReport.EmitsTotal | kpi_report_bandwidth.py:370-461 | without an exception the sensors append three records per Core sensor |
| KpiReport.FramePassCounts | kpi_report_bandwidth.py:368-468 | after a full pass, `i` is 5 plus the number of sensors and `summary_data` holds three records per Core sensor, each the record of some sensor |
| KpiReport.RunKpi | kpi_report_bandwidth.py:474-480 | from the sensor listing to the end of `sensorsFrameCall`: the listing's error, or the pass over the visited sensors from an empty `summary_data` |
| OptReport.LimitOf | kpi_report_bandwidth_opt.py:407-420 | a limit tag is absent, unparsable by `float()`, or a number, exactly as the truthiness test and `float()` decide |
| OptReport.ViewOf | kpi_report_bandwidth_opt.py:363-470 | what the parses read from the tags: location, choke, both limits, the `.get('kpi_cktmaxlimit')`, up, edge, and the Core test with its TypeError |
| OptReport.Views | kpi_report_bandwidth_opt.py:481 | one view per sensor |
| OptReport.SensorTags | kpi_report_bandwidth_opt.py:363 | `extract_tags(sensor)` gives the sensor's view |
| OptReport.FloatCell | kpi_report_bandwidth_opt.py:407-420 | a `float()` cell raises ValueError exactly for an unparsable tag, is 'NA' for an absent one, and otherwise is the number |
| OptReport.RatioCell | kpi_report_bandwidth_opt.py:424-437 | the ratio cell is 'NA' exactly for an absent tag. It raises ValueError for an unparsable tag and ZeroDivisionError for zero; otherwise the ratio times the limit is `max_traffic` |
| OptReport.SegRatio | kpi_report_bandwidth_opt.py:467 | the summary ratio raises TypeError for a missing tag, and ValueError or ZeroDivisionError for a bad one; otherwise the ratio times the limit is `max_traffic` |
| OptReport.Report.constructor | kpi_report_bandwidth_opt.py:541-574 | the globals start empty: an empty `prtgDataDict` and an empty `kpi_seg_arr` |
| OptReport.Report.NormalizeTraffic | kpi_report_bandwidth_opt.py:174-186 | `normalize_traffic` rewrites the channel of `prtgDataDict[w]` in place as the scaling specifies, or raises leaving it alone |
| OptReport.Report.NormalizeChannels | kpi_report_bandwidth_opt.py:364-365 | both channels, inbound first, as specified |
| OptReport.Report.WriteMainCells | kpi_report_bandwidth_opt.py:370-437 | columns 1..7 of the main parse, written in order until one raises |
| OptReport.Report.AddCoreSegment | kpi_report_bandwidth_opt.py:460-470 | the Core block of the main parse, as specified |
| OptReport.Report.MainParse | kpi_report_bandwidth_opt.py:360-470 | `prtgMainParse` computes its specification |
| OptReport.Report.ExtendParse | kpi_report_bandwidth_opt.py:308-358 | `prtgExtendHistParse` computes its specification |
| OptReport.Report.WriteExtendCells | kpi_report_bandwidth_opt.py:317-358 | the cells of the extended parse, as specified |
| OptReport.Report.BuildComps | kpi_report_bandwidth_opt.py:225-246 | `buildComps` computes its specification |
| OptReport.Report.VisitSample | kpi_report_bandwidth_opt.py:253-300 | one pass of the `storeAPIResponse` loop, as specified |
| OptReport.Report.StoreAPIResponse | kpi_report_bandwidth_opt.py:248-300 | `storeAPIResponse` computes its specification |
| OptReport.Report.WriteTotals | kpi_report_bandwidth_opt.py:492-496 | the five SUM formulas go to B5..F5 and nothing else changes |
| OptReport.Report.PrtgMainCall | kpi_report_bandwidth_opt.py:477-506 | `prtgMainCall` computes its specification: `loc_index`, all globals and the exception |
| OptReport.ViewWritten | kpi_report_bandwidth_opt.py:370-403 | the cells a parse copies from the tags are never `''`, so `writeToSheet` writes each |
| OptReport.MainRowKeeps | kpi_report_bandwidth_opt.py:370-437 | the main parse changes no cell outside columns 1..7 of row `i` |
| OptReport.MainRowFirst | kpi_report_bandwidth_opt.py:370-403 | columns 1..3 of row `i` are always written, as location, maximum and choke |
| OptReport.MainRowComplete | kpi_report_bandwidth_opt.py:405-437 | the row completes exactly when none of the four numeric cells raises; columns 4..7 then hold both limits and both ratios |
| OptReport.NormalizeBothKeeps | kpi_report_bandwidth_opt.py:364-365 | `normalize_traffic` touches `prtgDataDict[w]` and nothing else |
| OptReport.CoreSummaryKeeps | kpi_report_bandwidth_opt.py:460-470 | the Core block changes only row `len(kpi_seg_arr) + 2`, columns 1..3, of the summary, and `kpi_seg_arr`, which stays or gains the new segment at its end |
| OptReport.CoreSummaryRow | kpi_report_bandwidth_opt.py:460-470 | a known, non-Core or unreadable segment is never appended. A new Core segment gets its name and maximum written; it is appended exactly when its ratio can be computed, and otherwise the block raises that ratio's error |
| OptReport.MainParseKeeps | kpi_report_bandwidth_opt.py:360-470 | `prtgMainParse` changes only main row `i` columns 1..7, the new Core segment's summary row, the fill of columns 1..6 of an edge row, and `prtgDataDict[0]`; `kpi_seg_arr` gains at most the new segment |
| OptReport.MainParseDict | kpi_report_bandwidth_opt.py:362-365 | the main parse rewrites only `prtgDataDict['0 Weeks Back']` |
| OptReport.MainParseRow | kpi_report_bandwidth_opt.py:368-437 | a main parse that returns normally had both channels normalised, has non-zero limits, and leaves in row `i` the location, the maximum of the channel `kpi_trafficdirection` selects, the choke, both limits and both utilisations of that maximum |
| OptReport.ExtendCellsKeeps | kpi_report_bandwidth_opt.py:317-358 | the extended parse changes only cells (i, 5) and (i, 7 + w) and summary cell (len + 2, 3 + w). It completes exactly when `float(kpi_cktmaxlimit)`, the Core test, a new Core segment's summary ratio and the choke ratio all succeed. Then (i, 5) holds the circuit limit or 'NA', (i, 7 + w) the choke utilisation of the week's maximum or 'NA', and a new Core segment's summary cell its circuit ratio |
| OptReport.ExtendParseKeeps | kpi_report_bandwidth_opt.py:308-358 | `prtgExtendHistParse` for week w changes those cells and `prtgDataDict[w]`, and keeps the fill and `kpi_seg_arr`. A failed `normalize_traffic` ends it with that exception; otherwise the three cells hold those values, computed from the selected channel |
| OptReport.CompCopyFields | kpi_report_bandwidth_opt.py:226-246 | the copy exists exactly when the eight traffic fields are present. It then has the nine keys, the rewritten date, and the sample's own values |
| OptReport.BuildCompsDispatch | kpi_report_bandwidth_opt.py:226-246 | without a full copy nothing changes. With one, week w's block is replaced and week 0 goes to the main parse, a later week to the extended one; the KeyError handler means it never ends in KeyError |
| OptReport.BuildCompsDict | kpi_report_bandwidth_opt.py:226-246 | `buildComps` changes at most the block of its week in `prtgDataDict` |
| OptReport.BuildCompsLater | kpi_report_bandwidth_opt.py:243-244 | a later week touches neither the fill nor `kpi_seg_arr` |
| OptReport.NameAt | kpi_report_bandwidth_opt.py:465 | the name in column A of a summary row, when a string stands there |
| OptReport.SegRowsUnique | kpi_report_bandwidth_opt.py:461-470 | under the segment invariant, two summary rows name one segment only if they are one row |
| OptReport.CoreSummaryRows | kpi_report_bandwidth_opt.py:460-470 | the Core block keeps the invariant that `kpi_seg_arr` lists each segment once, the j-th in row j + 2; it only extends `kpi_seg_arr` |
| OptReport.MainParseRows | kpi_report_bandwidth_opt.py:360-470 | the main parse keeps that invariant |
| OptReport.ExtendParseRows | kpi_report_bandwidth_opt.py:308-358 | a later week writes no column A cell and keeps the invariant |
| OptReport.BuildCompsRows | kpi_report_bandwidth_opt.py:225-246 | `buildComps` keeps the invariant for every week |
| OptReport.VisitRows | kpi_report_bandwidth_opt.py:253-300 | one pass of `storeAPIResponse` keeps the invariant |
| OptReport.StoreFromRows | kpi_report_bandwidth_opt.py:250-300 | the whole `storeAPIResponse` loop keeps the invariant |
| OptReport.TotalsRows | kpi_report_bandwidth_opt.py:492-496 | the SUM formulas go to columns B..F and keep the invariant |
| OptReport.MainCallRows | kpi_report_bandwidth_opt.py:481-506 | the remaining iterations of `prtgMainCall` keep the invariant |
| OptReport.MainCallSegments | kpi_report_bandwidth_opt.py:477-506 | `prtgMainCall` keeps the invariant, so every Core segment gets one summary row and is never listed twice |
| OptReport.StoreSplit | kpi_report_bandwidth_opt.py:250-300 | the loop visits indices in order: running to m and then on to n is running to n, unless it stopped at an exception |
| OptReport.StorePrefix | kpi_report_bandwidth_opt.py:251-253 | samples at index `treesize` or beyond are never read |
| OptReport.StoreInBounds | kpi_report_bandwidth_opt.py:251-253 | with a `treesize` beyond the end of `histdata` the loop never finishes normally: reading past the end raises |
| OptReport.MainCallAllFetched | kpi_report_bandwidth_opt.py:481-506 | when `prtgMainCall` finishes normally, every sensor was fetched with status 200 and `loc_index` advanced once per sensor |
| OptReport.MainCallExit | kpi_report_bandwidth_opt.py:499-503 | a non-200 response ends `prtgMainCall` with `exit(1)` at that sensor |
| OptReport.MainCallTotals | kpi_report_bandwidth_opt.py:492-496 | when `prtgMainCall` finishes normally, the five SUM formulas stand in B5..F5, whatever a fourth Core segment wrote into that row |

## Left out

- HTTP requests, JSON decoding, credentials, `argparse` and `getpass` are not modelled. Responses, the sensor listing and option values are parameters.
- The non-200 branch of the sensor list request (`exit(1)` or `quit()`) is not modelled: the model starts from a listing.
- `datetime.now()`, `strptime` and the date regular expressions of opt's `storeAPIResponse` are not modelled. Each sample carries its distance from today in days, and the date string that replaces its `datetime` field.
- A sample whose `datetime` matches neither regular expression keeps the previous sample's date in the source. To model it, give it the previous sample's `daysBack` and `date`.
- Three date failures are not modelled: an undated first sample, which raises UnboundLocalError; a `datetime` that is not a string, which makes `re.search` raise an uncaught TypeError; and the unanchored first pattern `\d{1}/\d{2}/\d{4}` (kpi_report_bandwidth_opt.py:256). That pattern matches from the second digit of a two-digit month: an October date gives month 0 and `strptime` raises an uncaught ValueError, as do December 30 and 31 (February 30 and 31) and December 29 outside leap years. Other November and December dates are read as January and February.
- `math.ceil(numpy.percentile(..))` is the parameter `pct`. Floats are exact reals, so rounding and the `0.000008` product's binary error are not modelled.
- Styling, column widths, conditional formatting, and every `save()` are not modelled. `writeToSheet` and `write_XLSX` save the workbook on each call.
- The pandas DataFrame writes of kpi_report_bandwidth.py (`summary_df[..][i].append`, `primary_df`, `secondary_df`) are not modelled. They are treated as no-ops, although in the source they would raise on their first call. The script's call at line 480 also names an undefined `output_file_TMP`. The model keeps `summary_data`, the counter `i` and the exception or `exit(1)` that ends the run.
- The timing and `print` blocks, opt's debug prints and the `cliargs.debug` branch are not modelled.
- `timetestershit.py` is not part of this model.
- CSV quoting and file handles are not modelled: old.py's output file is the list of rows written to it.
- `int()` and `float()` on strings accept an optional sign and ASCII digits, and `float()` also accepts one decimal point. Other Unicode decimal digits (such as full-width `'１０'`), whitespace, underscores, exponents, `inf` and `nan` are not modelled.
- The iteration order of the segment `set` is the input `order`. The lemmas that need it assume `order` enumerates the set.
- OptReport.Report.PrtgMainCall: `extract_tags(sensor)` is computed once per sensor and handed to both parses as a view. The source recomputes it in every parse; the two agree because the parser is pure.
- `while i < int(treesize)` is a loop over `max(0, treesize)` indices, with `treesize` already an integer.
- Opt's `xlsx_build` headers and column letters are not modelled. main.py's headers are.
- The `s_count` argument of opt's parses only selects a cell style. The style is not modelled; the row it locates is `len(kpi_seg_arr) + 2`.
- Opt's `sensor_index`, the unused `sensordata` argument, and the commented-out blocks are not modelled.
- `summary_out` of kpi_report_bandwidth.py is modelled although the script never calls it.
