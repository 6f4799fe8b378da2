# Regional values: CSV ingestion and bar-chart pipeline, modelled in Dafny

This project models the data path of a small web service that receives a CSV
file of regional observations. The file's columns are "Область" (region),
"Місто/Район" (city or district) and "Значення" (value). The service can
store the rows as location records, or draw a bar chart of the mean value
per group. The model covers these parts:

- `CsvProcess` (`csv_process.dfy`): `generate_chart`.
  - It checks that the group and value columns are present.
  - It replaces the value column by its numeric coercion and drops the rows that fail. Both steps change the caller's data frame in place.
  - It averages each group, orders the groups by mean from highest to lowest, and describes the chart: figure size, title, axis labels, palette, tick layout and bars.
  - When saving is requested, it also gives the output path.
- `Controllers` (`controllers.dfy`):
  - `upload_csv`: the suffix check, the decode error, the column check, the row loop that turns rows into records, the conditional batch insert and the response.
  - `create_chart`: the form defaults, the call into the pipeline, the error payload and the PNG response.
- `DbTools` (`db_tools.dfy`): `camel_to_snake`, written as its three regular-expression substitutions followed by lower-casing.
- `Postgres` (`postgres.dfy`): the `PsqlUrl` class, holding the synchronous and asynchronous connection URLs, and its `create_using_settings` factory.
- `Frame` (`frame.dfy`): the data frame as the CSV reader leaves it, the coercion `to_numeric(errors="coerce")`, which returns a new column, and the two in-place steps: assigning that column back with `df[v] = ...`, and `dropna(subset=..., inplace=True)`.
- `Python` (`python.dfy`): the pieces of Python behaviour the rest relies on.
  - `str(int)`, a decimal-numeral reader behind `float()` and `to_numeric`, and truthiness of optional strings (`x or default`).
  - `str.endswith`, `repr` of a list of strings, and `os.path.join` for two parts.

The chart endpoint's data frame is a `DataFrame` object, and `GenerateChart`
mutates it, as pandas does. The upload loop is a method with a loop, proved
equal to the recursive definition `Records`. The store is an object with one
field: its committed batches.

## Behaviour worth knowing

- A missing value ("N/A", an empty cell) reaches `float()` in `upload_csv` as NaN, and `float(NaN)` does not raise. Such a row is stored with a NaN value (`Controllers.MissingValueIsRecorded`). Only a value whose text does not read as a number is skipped (`Controllers.OneRejectedRow`). The chart pipeline, by contrast, drops NaN values (`CsvProcess.CleanOneRejected`).
- `sort_values` sorts unstably by default, so the order among groups with equal means is not fixed (`CsvProcess.SortByMeanDesc`). The model's own tie order is first-seen order, as `CsvProcess.ScenarioSort` and `CsvProcess.AggregateScenario` show for ties between two groups. The source does not guarantee that order.
- `groupby` leaves out rows whose group cell is missing. A table whose group cells are all missing therefore gives an empty aggregate and a chart without bars (`CsvProcess.AggregateGroups`).
- `generate_chart` checks only the group column and the value column, and reports the missing ones in that order (`CsvProcess.Missing`). The three expected headers are checked only by `upload_csv`.

## Model

| member | source | states |
|---|---|---|
| Python.NatStr | core/postgres.py:18 | the decimal numeral of a natural number is non-empty and all digits |
| Python.NatStrValue | core/postgres.py:18 | the numeral's digits read back as the number |
| Python.PathJoin | api/modules/processing/utils/csv_process.py:79 | the joined path always ends with its second part |
| Python.DotIndex | api/modules/processing/utils/csv_process.py:54 | the index of the first '.', or the length when there is none; no '.' comes before it |
| Python.ParseDecimal | api/modules/processing/utils/csv_process.py:54 | the numeral reader accepts only text that contains a digit, and reads a plain digit string as its value |
| Python.StrParsesBack | core/postgres.py:18 | the decimal text of any integer port reads back as that integer |
| Frame.ToNumeric | api/modules/processing/utils/csv_process.py:54 | coercion yields a number or NA; numbers stay unchanged; NA stays NA; text becomes a number exactly when it reads as a decimal numeral |
| Frame.CoerceColumn | api/modules/processing/utils/csv_process.py:54 | `df[v] = to_numeric(df[v])`: same rows and the same columns per row; the column holds each cell's coercion; every other cell is unchanged |
| Frame.DropNa | api/modules/processing/utils/csv_process.py:55 | the kept rows are exactly the input rows whose cell in the column is not NA, and there are no more of them than before |
| Frame.DropNaAppend | api/modules/processing/utils/csv_process.py:55 | dropping distributes over concatenation, so the kept rows keep their relative order |
| Frame.DropNaNoop | api/modules/processing/utils/csv_process.py:55 | rows without NA in the column are left as they are |
| Frame.DropNaKeepsKeys | api/modules/processing/utils/csv_process.py:55 | every kept row has the columns the input rows had |
| Frame.DataFrame.FromTable | api/modules/processing/controllers.py:70 | the frame the reader produces holds that table's columns and rows |
| Frame.DataFrame.CoerceNumeric | api/modules/processing/utils/csv_process.py:54 | the column is replaced in place by its coercion; columns, row shapes and the other cells stay |
| Frame.DataFrame.DropNaInPlace | api/modules/processing/utils/csv_process.py:55 | the frame keeps exactly its non-NA rows in place, in order |
| CsvProcess.ErrorMessage | api/modules/processing/utils/csv_process.py:51 | the ValueError text starts with "Missing columns: " |
| CsvProcess.Missing | api/modules/processing/utils/csv_process.py:49-51 | a column is reported exactly when it is the group or value column and absent; none is missing iff both are present; both absent are reported group first |
| CsvProcess.Clean | api/modules/processing/utils/csv_process.py:54-55 | after cleaning, every remaining value is a number, and no rows are added |
| CsvProcess.CoerceColumnAppend | api/modules/processing/utils/csv_process.py:54 | coercion works row by row |
| CsvProcess.CleanSingleRow | api/modules/processing/utils/csv_process.py:54-55 | a row survives exactly when its value coerces, and then carries the coerced number |
| CsvProcess.CleanAppend | api/modules/processing/utils/csv_process.py:54-55 | cleaning distributes over concatenation, so it is a stable filter |
| CsvProcess.CleanKeepsAll | api/modules/processing/utils/csv_process.py:54-55 | no row is lost iff every value coerces |
| CsvProcess.CleanCount | api/modules/processing/utils/csv_process.py:54-55 | the first row adds one to the number kept exactly when its value coerces |
| CsvProcess.CleanOneRejected | api/modules/processing/utils/csv_process.py:54-55 | one non-numeric value among numeric ones removes exactly one row |
| CsvProcess.CleanNoop | api/modules/processing/utils/csv_process.py:54-55 | an already numeric column is left unchanged |
| CsvProcess.CleanIdempotent | api/modules/processing/utils/csv_process.py:54-55 | cleaning twice equals cleaning once |
| CsvProcess.Observations | api/modules/processing/utils/csv_process.py:58-59 | the (key, value) pairs grouped, at most one per row; no key is NA, because `groupby` drops missing keys; there are none exactly when every group cell is missing |
| CsvProcess.KeysSnoc | api/modules/processing/utils/csv_process.py:58-59 | the keys of a longer prefix are the earlier keys plus the new row's key |
| CsvProcess.DistinctKeys | api/modules/processing/utils/csv_process.py:58-59 | the group keys without repetition, exactly those present |
| CsvProcess.GroupCount | api/modules/processing/utils/csv_process.py:58-60 | a group's size is positive exactly for a key present, and at most the number of rows |
| CsvProcess.GroupMeans | api/modules/processing/utils/csv_process.py:58-60 | `groupby(...).mean()`: one row per group present, no two rows with the same key, and only keys that are present |
| CsvProcess.Insert | api/modules/processing/utils/csv_process.py:61 | inserting into a descending list keeps it descending and adds exactly that element |
| CsvProcess.SortByMeanDesc | api/modules/processing/utils/csv_process.py:61 | the result is ordered by mean from highest to lowest and is a permutation of the input |
| CsvProcess.InsertKeepsDistinctKeys | api/modules/processing/utils/csv_process.py:61 | inserting a new key keeps the keys distinct |
| CsvProcess.SortKeepsDistinctKeys | api/modules/processing/utils/csv_process.py:61 | sorting keeps one row per group |
| CsvProcess.GroupMeansSummarise | api/modules/processing/utils/csv_process.py:58-60 | there is one mean row per distinct key, with no other keys, and each mean is the group's sum over its size |
| CsvProcess.PermutationSummarises | api/modules/processing/utils/csv_process.py:61 | reordering the mean rows without duplicating a key keeps them a correct summary |
| CsvProcess.Aggregate | api/modules/processing/utils/csv_process.py:58-62 | the aggregate is ordered by mean from highest to lowest and has no more rows than the table |
| CsvProcess.AggregateGroups | api/modules/processing/utils/csv_process.py:58-62 | the aggregate is a descending permutation of the group means, with one row per distinct key and its correct mean; it is empty iff every group cell is missing |
| CsvProcess.AggregateScenario | api/modules/processing/utils/csv_process.py:58-62 | rows A=10, B=30, A=20, C=30 give exactly [B 30, C 30, A 15] in the model: A with mean 15 comes last, and the tie between B and C is in first-seen order |
| CsvProcess.ScenarioKeys | api/modules/processing/utils/csv_process.py:58-59 | those rows have the groups A, B, C |
| CsvProcess.ScenarioSums | api/modules/processing/utils/csv_process.py:58-60 | in those rows, A sums to 30 over 2 rows, and B and C each sum to 30 over 1 row |
| CsvProcess.ScenarioSort | api/modules/processing/utils/csv_process.py:61 | ordering the means 15, 30, 30 puts both 30s before the 15 |
| CsvProcess.SavePath | api/modules/processing/utils/csv_process.py:75-79 | a path is returned exactly when saving was requested |
| CsvProcess.BuildChart | api/modules/processing/utils/csv_process.py:65-71 | the chart has a non-empty title and one bar per aggregate row, in aggregate order, with the row's key as label and its mean as height |
| CsvProcess.ChartLabels | api/modules/processing/utils/csv_process.py:65-71 | the title is the given one if non-empty, else "Average v by g", and never empty; the axis labels default to the column names; the palette is the one given; the figure is 10x6; the title font is 14; ticks are rotated 45 degrees and right-aligned |
| CsvProcess.SavePathShape | api/modules/processing/utils/csv_process.py:76-79 | the saved path ends with the chosen name plus ".png"; the name defaults to g + "_chart" and is never empty; for a plain directory and a relative name the path is dir/name.png |
| CsvProcess.ChartBars | api/modules/processing/utils/csv_process.py:58-66 | one bar per group in aggregate order; heights never increase; no two bars share a label; there are no bars iff every group cell is missing |
| CsvProcess.GenerateChart | api/modules/processing/utils/csv_process.py:9-83 | a missing column gives the error with the missing and found columns, and the frame is untouched; otherwise the frame is cleaned in place and the result is the chart of the cleaned rows' aggregate plus the save path |
| Controllers.PyFloat | api/modules/processing/controllers.py:41-44 | float() keeps numbers, turns NA into NaN without raising, accepts text exactly when it reads as a number, and yields NaN only for NA |
| Controllers.RowRecord | api/modules/processing/controllers.py:41-49 | a row yields a record exactly when `float()` accepts its value; the record holds the row's region and district and the float |
| Controllers.RowRecords | api/modules/processing/controllers.py:41-50 | one row yields at most one record |
| Controllers.Records | api/modules/processing/controllers.py:39-50 | there are never more records than rows |
| Controllers.RecordsSingleRow | api/modules/processing/controllers.py:41-50 | a row yields a record exactly when float() accepts its value, and the record copies region and district |
| Controllers.RecordsAppend | api/modules/processing/controllers.py:39-50 | records are built row by row, in row order |
| Controllers.MissingValueIsRecorded | api/modules/processing/controllers.py:41-50 | a row whose value is missing still yields a record, valued NaN |
| Controllers.AllRowsRecorded | api/modules/processing/controllers.py:39-50 | every row yields a record iff float() accepts every value |
| Controllers.OneRejectedRow | api/modules/processing/controllers.py:39-50 | one rejected row among accepted ones costs exactly one record |
| Controllers.BuildRecords | api/modules/processing/controllers.py:39-50 | the loop builds exactly the records of the accepted rows, in order |
| Controllers.ColumnsDetail | api/modules/processing/controllers.py:36 | the 400 detail for missing columns starts with "CSV must contain columns: " |
| Controllers.Store.AddAllAndCommit | api/modules/processing/controllers.py:53-55 | one commit appends exactly that batch |
| Controllers.UploadCsv | api/modules/processing/controllers.py:14-60 | a name without ".csv" gives 400 with nothing stored; a decode failure gives 400 with the reason; missing expected columns give 400 listing expected and found; otherwise the response counts the records built, and a non-empty batch is committed once |
| Controllers.CreateChart | api/modules/processing/controllers.py:63-88 | absent form fields take their defaults; an error payload comes back exactly when a chart column is missing, with the pipeline's message; otherwise a 300-dpi PNG of the chart of the cleaned rows with the form title |
| DbTools.LowerRun | db/utils/db_tools.py:10 | `[a-z]+` takes the longest run of lower-case letters |
| DbTools.SplitBeforeWords | db/utils/db_tools.py:10 | the first substitution never shortens the name |
| DbTools.CollapseUnderscores | db/utils/db_tools.py:11 | the second substitution never lengthens the name |
| DbTools.SplitAfterLowerOrDigit | db/utils/db_tools.py:12 | the third substitution never shortens the name |
| DbTools.CamelToSnake | db/utils/db_tools.py:9-12 | the three substitutions and then lower-casing: the result contains no ASCII capital |
| DbTools.Lower | db/utils/db_tools.py:12 | lower-casing keeps the length and maps each character |
| DbTools.SplitBeforeWordsNoUpper | db/utils/db_tools.py:10 | the first substitution changes nothing in a name without capitals |
| DbTools.CollapseUnderscoresNoUpper | db/utils/db_tools.py:11 | the second substitution changes nothing in a name without capitals |
| DbTools.SplitAfterNoUpper | db/utils/db_tools.py:12 | the third substitution changes nothing in a name without capitals |
| DbTools.LowerNoUpper | db/utils/db_tools.py:12 | lower-casing changes nothing in a name without capitals |
| DbTools.NoUpperUnchanged | db/utils/db_tools.py:9-12 | a name without ASCII capitals is returned unchanged |
| DbTools.Idempotent | db/utils/db_tools.py:9-12 | converting twice equals converting once |
| DbTools.DropUnderscoresAppend | db/utils/db_tools.py:9-12 | removing underscores distributes over concatenation |
| DbTools.SplitBeforeWordsKeepsLetters | db/utils/db_tools.py:10 | the first substitution only inserts underscores |
| DbTools.CollapseUnderscoresKeepsLetters | db/utils/db_tools.py:11 | the second substitution only removes underscores |
| DbTools.SplitAfterKeepsLetters | db/utils/db_tools.py:12 | the third substitution only inserts underscores |
| DbTools.LowerDropUnderscores | db/utils/db_tools.py:12 | lower-casing commutes with removing underscores |
| DbTools.LowerAppend | db/utils/db_tools.py:12 | lower-casing works character by character |
| DbTools.OnlyUnderscoresChange | db/utils/db_tools.py:9-12 | with underscores removed, the result is the lower-cased name: the conversion adds or removes underscores and changes nothing else but case |
| DbTools.CamelCaseExample | db/utils/db_tools.py:9-12 | "CamelCase" becomes "camel_case" |
| DbTools.CamelCaseFirstPass | db/utils/db_tools.py:10 | the first substitution turns "CamelCase" into "Camel_Case" |
| DbTools.SplitBeforeWordsCons | db/utils/db_tools.py:10 | a character that does not start a match is copied, and the scan resumes right after it |
| DbTools.SplitBeforeWordsCopies | db/utils/db_tools.py:10 | a prefix with no capital after its first character, followed by text that does not start with a capital, is copied unchanged |
| DbTools.SplitLCase | db/utils/db_tools.py:10 | the first substitution turns "lCase" into "l_Case", with the lower-case run taken whole |
| DbTools.CamelCaseLaterPasses | db/utils/db_tools.py:11-12 | the later substitutions leave "Camel_Case" alone, and lower-casing gives "camel_case" |
| DbTools.SplitAfterFixed | db/utils/db_tools.py:12 | with no capital after a lower-case letter or digit, the third substitution changes nothing |
| DbTools.CollapseFixed | db/utils/db_tools.py:11 | with no doubled underscore, the second substitution changes nothing |
| DbTools.UnderscoreBeforeCapitalExample | db/utils/db_tools.py:10-12 | "a_Bc" becomes "a__Bc", the doubled underscore collapses back, and the result is "a_bc" |
| Postgres.UrlTail | core/postgres.py:18-19 | the URL tail is exactly the five parts and the four separators, and it ends with the database name |
| Postgres.UrlsShareTail | core/postgres.py:18-19 | both URLs carry the same "user:password@host:port/name" after their schemes, the schemes are psycopg and asyncpg, and the two URLs differ |
| Postgres.PsqlUrl.constructor | core/postgres.py:9-19 | the name is kept, and both URLs are the scheme followed by user:password@host:port/name |
| Postgres.PsqlUrl.CreateUsingSettings | core/postgres.py:21-29 | user, password, host, database name and port come from the matching settings fields |
| Postgres.DefaultPortExample | core/postgres.py:15 | with no port given, the URL uses 5432 |

## Left out

- Drawing and writing the image (`plt.subplots`, `sns.barplot`, `tight_layout`, `savefig`, `plt.close`, the `BytesIO` stream): a chart is modelled as the description handed to the plotting calls.
- `os.makedirs` and the `print` after saving: these are file-system and console effects. The path that `generate_chart` returns is modelled.
- Reading and decoding CSV (`read_csv` with `utf-8-sig`, `content.decode`): the model takes the decoded table, or the reader's error text, as input. This includes the reader's NA markers ("N/A", "NaN", empty cells), which arrive as `NA` cells.
- The `str` branch of `generate_chart`, which reads the file path itself: it is the same CSV reading.
- `create_chart`: a `read_csv` failure there is not caught and becomes a server error. The model starts after a successful read.
- Controllers.CreateChart: returns an error payload only for a missing column. A `ValueError` that pandas, matplotlib or seaborn might raise after the column check would also be caught by `except ValueError`, and those library errors are not modelled.
- Frame.ToNumeric: reads plain decimal numerals only (optional sign, digits, optional fraction). Exponents, surrounding whitespace, "inf"/"nan" text and underscores are not modelled, because they are the number parser's own grammar.
- Controllers.PyFloat: uses the same reader as `Frame.ToNumeric`, so it has the same limits.
- Floating-point arithmetic: values and means are exact `real`s, so rounding in the sum and the division is not modelled.
- CsvProcess.GroupMeans: keeps groups in first-seen order, whereas `groupby` orders them by key. Only the order after sorting reaches the chart, and the contracts state only the order by mean. Missing group keys are left out, as `groupby` does (`CsvProcess.Observations`).
- CsvProcess.Bars: gives the bars in aggregate order, which is the data handed to `barplot`. For numeric group keys, seaborn draws the categories in sorted key order. So the drawn order matches the aggregate order only for text keys.
- CsvProcess.SortByMeanDesc: the order among equal means is not claimed of the source. The library's default sort is not stable.
- DbTools.Lower: maps only ASCII capitals. Python's `str.lower` also maps other Unicode capitals, and the model does not capture this.
- Python's `repr` escaping inside column names in the error texts (quotes, backslashes, and control or non-printable characters such as newline and tab): column names are quoted as they are.
- The database session, `add_all` and `commit`: the store records the committed batch only. Transactions, the async session, failures and record ids are not modelled.
- The string length limits 50 and 100 on region and district in `db/models/location.py`: no database schema is modelled.
- FastAPI form parsing: an absent form field takes its default. How the framework treats an empty field is not modelled.
- Unsaved region and district cells: they keep the reader's cell type (text, number or NA). The model does not capture what conversion the ORM would apply.
- `core/settings.py` (reading the environment, `parse_cors_origins`), `db/session.py`, `core/dependencies.py`, `api/routes.py`, `main.py` and `db/models/__init__.py`: these are configuration and wiring with no logic of their own. The settings reach the model as a `Settings` value.
- `get_now` and `check_loaded` in `db/utils/db_tools.py`: one reads the clock and the other inspects ORM state. Neither is part of the name conversion.
