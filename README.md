# Batch identity across the INPI ETL pipeline

This project models how one extraction run ("batch") of the ETL pipeline is named, found and
selected again at each stage, and proves that the stages agree on it:

- **Step 1, download** (`functions/step1_download.py`): one `datetime.now()` is taken per run. Every
  active source is streamed to an object whose name comes from the configured storage structure
  `{raw_folder}/{year}-{month}/{source}__{date}_{time}.parquet`, with the extension picked from the URL.
- **Step 2, load** (`functions/step2_load.py`): object names are parsed back with the loader's regular
  expression and `strptime`. The objects are grouped by batch key `YYYY-MM-DD_HH-MM-SS`, and a batch is
  chosen: the one requested, the most recent, or the most recent of a given day. Its files are loaded
  into raw tables. Rows that have no extraction timestamp yet are stamped with the batch's datetime.
- **Step 3, transform** (`functions/step3_transform.py`): one extraction timestamp is chosen among those
  the warehouse holds (the requested one, otherwise the most recent). It becomes the
  `AND extraction_timestamp = TIMESTAMP('…')` filter of the three view definitions.
- **Orchestrator** (`functions/orchestrator.py`): runs the three stages in order, stops at the first
  failing stage before the transform, and routes each hint to its own stage.
- **Dashboard** (`interface/app.py`): a second, laxer reader of the object names lists and counts the
  batches. It also offers the operator labelled choices, where "Plus récent (recommandé)" stands for no
  hint at all.

Modules:

- `Common`: options, outcomes (`Raised` stands for an exception) and text helpers.
- `Keys`: datetimes, zero padding, the batch key and Python's string order.
- `Template`: `str.format` with named fields.
- `Download`, `Load`, `Transform`, `Orchestrator`, `Dashboard`: the five source files.
- `Correlation`: the cross-stage theorems.

Python's string comparison is `Keys.LexLe`. The batch key sorts exactly like the datetime it encodes
(`Keys.KeyOrderIsChronological`), so "most recent" by `sorted(…, reverse=True)[0]` is the chronologically
latest batch.

The loader's module docstring (functions/step2_load.py:3) says it checks the folder and the
timestamp. The regular expression captures the folder's year and month, but nothing compares them with
the date. The model follows the code, and `Load.PartitionNotCompared` exhibits a name whose folder and
date disagree but which is still accepted.

## Model

| member | source | states |
|---|---|---|
| Keys.DateString | functions/step1_download.py:98 | `strftime('%Y-%m-%d')` yields text of the shape the loader's date group accepts |
| Keys.TimeString | functions/step1_download.py:99 | `strftime('%H-%M-%S')` yields text of the shape the loader's time group accepts |
| Keys.ClockString | interface/app.py:236 | `strftime('%H:%M:%S')` equals the `%H-%M-%S` text with every `-` replaced by `:` |
| Keys.FieldsOfFormatted | functions/step2_load.py:66 | parsing the date and time texts with `strptime` gives back the datetime they were formatted from |
| Keys.FormattedFieldsOf | functions/step2_load.py:66 | a date and time text that parses to a valid datetime is exactly that datetime's formatting |
| Keys.Pad2RoundTrip | functions/step1_download.py:97 | a two-digit zero-padded field reads back as the number it encodes |
| Keys.Pad4RoundTrip | functions/step1_download.py:96 | a four-digit `%Y` field reads back as the year it encodes |
| Keys.LexLeTotal | functions/step2_load.py:175 | any two keys are comparable under Python's string order |
| Keys.LexLeAntisymmetric | functions/step2_load.py:175 | two keys each no greater than the other are equal |
| Keys.LexLeTransitive | functions/step2_load.py:175 | the string order used by `sorted` is transitive |
| Keys.KeyOrderIsChronological | functions/step2_load.py:175 | one batch key sorts at or before another exactly when its datetime is not after the other's |
| Keys.BatchKeyInjective | functions/step2_load.py:73 | two datetimes with the same `{date}_{time}` key are the same datetime |
| Keys.MaxOf | functions/step2_load.py:175 | the first element of a reverse sort is one of the keys and no key sorts after it |
| Template.Fill | functions/step1_download.py:93-100 | `str.format` succeeds exactly when every named field of the template is supplied |
| Template.FillConcat | functions/step1_download.py:93-100 | formatting two concatenated templates concatenates their formatted texts |
| Download.ExtensionFor | functions/step1_download.py:85-90 | the extension is `parquet` or `csv`; it is `csv` exactly when the lower-cased URL holds `csv` but not `parquet` |
| Download.BeforeLastDot | functions/step1_download.py:103 | `rsplit('.', 1)[0]` is a prefix without its final dot, or the whole text when there is no dot |
| Download.ReplaceExtension | functions/step1_download.py:103 | replacing the `.parquet` of the structure by the chosen extension keeps everything before it |
| Download.GeneratePath | functions/step1_download.py:79-105 | the path exists exactly when the structure's fields are all supplied, and it ends in `.` plus the URL's extension |
| Download.GeneratePathOfFilled | functions/step1_download.py:92-105 | the path is the formatted structure up to its last dot, followed by the URL's extension |
| Download.FillDefault | functions/step1_download.py:82 | the configured structure formats to `raw/YYYY-MM/source__YYYY-MM-DD_HH-MM-SS.parquet` |
| Download.DefaultPath | functions/step1_download.py:79-105 | the object name of a source in a run is the storage name built from that run's datetime |
| Download.Selected | functions/step1_download.py:193-197 | a source is kept exactly when no source name is given or it has that name |
| Download.DownloadData | functions/step1_download.py:170-246 | results and uploads are those of the run specification: `{}` when the bucket fails or the filter matches nothing, otherwise one attempt per active source, all at one datetime |
| Download.ResultKeys | functions/step1_download.py:199-228 | a source name has a result exactly when some selected source of that name is active |
| Download.EveryActiveSourceTransferred | functions/step1_download.py:209-218 | every active source whose path exists is streamed to that path, and every stream comes from an active source and its own path |
| Download.ResultOfEachSource | functions/step1_download.py:209-228 | with distinct names, an active source's result is true exactly when its path exists and its transfer succeeded |
| Load.TableName | functions/step2_load.py:37-56 | an unknown table type raises; `raw` and `transformed` succeed exactly when their pattern's fields are supplied |
| Load.TableNamesDistinct | functions/step2_load.py:56 | distinct sources get distinct table names under a pattern that embeds the source |
| Load.RawTableNameUniform | functions/step2_load.py:49-56 | whether the raw table name can be built does not depend on the source |
| Load.ExtensionAtEnd | functions/step2_load.py:61 | the final extension group is found exactly when the name ends with `.parquet` or `.csv` |
| Load.FirstPartition | functions/step2_load.py:61 | the lazy `.*?/` stops at the first position followed by a `YYYY-MM/` folder |
| Load.MatchName | functions/step2_load.py:61-62 | a match yields a non-empty source, a date and a time of the key's shape, and a `parquet` or `csv` extension |
| Load.ExtractFileInfo | functions/step2_load.py:59-76 | no match gives `None`; an impossible date raises; otherwise the record carries the groups, the key `{date}_{time}` and the datetime whose key it is |
| Load.MatchStorageName | functions/step2_load.py:61 | the expression matches a storage name and recovers its folder, source, date, time and extension |
| Load.MatchedNameIsStorageName | functions/step2_load.py:61-62 | conversely, every name the expression accepts is, up to one final line break, a storage name `<raw>/<year>-<month>/<source>__<date>_<time>.<ext>` whose folder holds no partition segment, with the groups as its fields |
| Load.ExtractStorageName | functions/step2_load.py:59-76 | a storage name built from a datetime reads back as that datetime, its key and its source |
| Load.PartitionNotCompared | functions/step2_load.py:61-76 | a name whose month folder disagrees with its date is accepted with the folder's year and month |
| Load.ListBlobs | functions/step2_load.py:84-85 | an object is listed exactly when it is stored and starts with the prefix |
| Load.Classify | functions/step2_load.py:86-91 | folders and non-matching names are skipped, impossible dates raise, and the rest become their parsed records |
| Load.Kept | functions/step2_load.py:86-93 | a record is kept exactly when its name was classified as it and it passes the timestamp filter |
| Load.KeptRecords | functions/step2_load.py:86-93 | every kept record comes from a listed non-folder name and carries the datetime its key encodes |
| Load.GroupRaisesIff | functions/step2_load.py:86-97 | the listing raises exactly when some listed name has an impossible date |
| Load.GroupPartitionsKept | functions/step2_load.py:86-97 | the groups hold exactly the kept records, each under its own key, once per key |
| Load.ListFilesByTimestamp | functions/step2_load.py:78-98 | the loop computes the grouping of the listed names by key |
| Load.StartingWith | functions/step2_load.py:179 | a key is kept exactly when it is listed and starts with the day |
| Load.SelectBatch | functions/step2_load.py:170-186 | a given timestamp is used as is; otherwise the listing's exception propagates, an empty listing selects nothing, and the choice is the greatest key (of that day) |
| Load.LatestBatchIsMostRecent | functions/step2_load.py:170-177 | the batch chosen with no hint has files, and no listed file is later than them |
| Load.LatestOfDayIsMostRecent | functions/step2_load.py:178-186 | the batch chosen for a day has files, and no file of that day is later than them |
| Load.BatchFiles | functions/step2_load.py:188-193 | every file fetched for a batch carries that batch's key |
| Load.StoredRecordInBatch | functions/step2_load.py:188-193 | every stored object of the batch's month that parses to the batch's key is among its files |
| Load.BatchFilesShareMoment | functions/step2_load.py:195 | all files of a batch carry the same datetime, so stamping with the first file's datetime stamps with every file's |
| Load.LoadFiles | functions/step2_load.py:195-205 | each file is loaded once, in order, into its source's raw table with the first file's datetime; the result is whether all loads succeeded |
| Load.LoadBatch | functions/step2_load.py:161-205 | selection failures and empty batches give false or raise without loading; otherwise every file of the selected batch is loaded as above |
| Load.Stamped | functions/step2_load.py:147-154 | a row without a timestamp gets the batch's timestamp and date; a stamped row is left unchanged |
| Load.StampAll | functions/step2_load.py:147-154 | the update touches each row on its own, keeping the count and order |
| Load.StampIdempotent | functions/step2_load.py:147-154 | a second update with any other datetime changes nothing |
| Load.AppendedRowsCarryTheBatchStamp | functions/step2_load.py:147-154 | rows appended by a load get this batch's stamp and keep their cells; earlier stamped rows keep theirs |
| Load.StampNullRows | functions/step2_load.py:147-154 | the in-place update leaves the table equal to the stamped rows |
| Load.StampColumnsToAdd | functions/step2_load.py:109-115 | exactly the missing timestamp and date columns are added, timestamp first, and none already present |
| Correlation.FolderWithoutSlash | functions/step2_load.py:61 | a raw folder without `/` or newline keeps every object name readable by the loader |
| Correlation.RoundTrip | functions/step2_load.py:59-76 | the loader reads a downloaded object's name back as its source, run datetime and batch key, with the URL's extension |
| Correlation.RunIsOneBatch | functions/step1_download.py:176 | every object uploaded by one run parses to that run's key and datetime and to its own source |
| Correlation.KeyMonth | functions/step2_load.py:188 | the key's first seven characters are the run's `YYYY-MM` folder |
| Correlation.StoredObjectIsLoadedWithItsBatch | functions/step2_load.py:187-193 | a stored object from a run is among the files the loader fetches for that run's key |
| Correlation.UnderMonthFolder | functions/step2_load.py:84 | a storage name lies under its month's prefix and is not a folder |
| Correlation.PathInMonthPartition | functions/step2_load.py:84 | a downloaded object lies under the prefix the loader lists for its key's month |
| Transform.SelectTimestamp | functions/step3_transform.py:48-89 | nothing is selected exactly when the warehouse holds no timestamp; the selection is always available, and it differs from the most recent only when it is the parsed request |
| Transform.RequestHonoured | functions/step3_transform.py:72-84 | a request that parses is selected exactly when the parsed value is available |
| Transform.FallbackIsMostRecent | functions/step3_transform.py:64-89 | with no request, an unparsable one or an unknown one, the first warehouse timestamp is selected, and no timestamp is later than it |
| Transform.NaiveRequestFallsBack | functions/step3_transform.py:72-82 | a request without a UTC offset never equals a warehouse timestamp, so it falls back to the most recent |
| Transform.IsoFormat | functions/step3_transform.py:128 | `isoformat()` has 25 characters for a UTC value and 19 for a naive one |
| Transform.IsoInjective | functions/step3_transform.py:128 | distinct timestamps have distinct `isoformat()` texts |
| Transform.TimestampFilter | functions/step3_transform.py:126-130 | the filter is empty exactly when no timestamp is selected |
| Transform.FilterInjective | functions/step3_transform.py:126-130 | distinct selections give distinct filters |
| Transform.IsoRequestSelectsIt | functions/step3_transform.py:70-89 | requesting an available timestamp by its `isoformat()` text selects that timestamp |
| Transform.ViewEnv | functions/step3_transform.py:132-136 | the view templates get exactly the project, the dataset and the filter |
| Transform.FormatSql | functions/step3_transform.py:111-136 | the view text exists exactly when the template uses no field beyond the three supplied |
| Transform.FormatWithoutTimestamp | functions/step3_transform.py:123-124 | formatting without a timestamp filters on the most recent one, or on nothing when none exists |
| Transform.FormatSqlPieces | functions/step3_transform.py:126-136 | the `{timestamp_filter}` field is replaced by the filter of the selected timestamp, with the rest formatted around it |
| Transform.CreateView | functions/step3_transform.py:139-178 | a view is created exactly when its file is read, its template formats and its query succeeds |
| Transform.Views | functions/step3_transform.py:208-224 | the three view files, in dependency order |
| Transform.EachViewReported | functions/step3_transform.py:228-235 | with distinct names, each view's result is whether that view was created |
| Transform.OneEntryPerView | functions/step3_transform.py:228-235 | with distinct names, there is one result per view |
| Transform.ViewResultsKeys | functions/step3_transform.py:228-235 | the results are keyed exactly by the views' names |
| Transform.TransformData | functions/step3_transform.py:181-252 | the timestamp is selected once, and every view is created with that same selection |
| Orchestrator.RunPipeline | functions/orchestrator.py:23-137 | the run succeeds exactly when every stage not skipped succeeds; the stages invoked are those of the pipeline trace |
| Orchestrator.DownloadFailureStopsTheRun | functions/orchestrator.py:64-82 | a failing download is the only stage invoked |
| Orchestrator.LoadFailureStopsTheRun | functions/orchestrator.py:85-102 | a failing load is the last stage invoked, and the transform never runs |
| Orchestrator.TransformReachedIff | functions/orchestrator.py:105-122 | the transform runs exactly when no earlier stage failed |
| Orchestrator.HintRouting | functions/orchestrator.py:64-110 | the source name reaches only the download, the timestamp only the transform, and the load always gets no hint |
| Orchestrator.RunStep1Only | functions/orchestrator.py:140-157 | success means the download's results are non-empty and all true |
| Orchestrator.RunStep2Only | functions/orchestrator.py:160-176 | success means the load, given the hints, returned true |
| Orchestrator.RunStep3Only | functions/orchestrator.py:179-224 | list mode succeeds exactly when the warehouse holds a timestamp; otherwise the transform's results are non-empty and all true |
| Orchestrator.ListModeMatchesSelection | functions/step3_transform.py:59-63 | list mode succeeds exactly when a transform run would select a timestamp |
| Dashboard.SecondPart | interface/app.py:226-227 | the text after the first `__` exists exactly when the name holds `__` |
| Dashboard.BeforeDot | interface/app.py:228 | `split('.')[0]` is the prefix before the first dot |
| Dashboard.SplitOnce | interface/app.py:232 | unpacking into date and time succeeds exactly when the text holds one `_`, and the two parts rebuild it |
| Dashboard.ScanSeen | interface/app.py:229-230 | a timestamp text is marked seen exactly when some listed name yields it |
| Dashboard.ScanConsistent | interface/app.py:229-239 | each recorded batch was seen and is what its timestamp splits into, every seen timestamp that splits is recorded, and none twice |
| Dashboard.Insert | interface/app.py:241 | inserting adds the batch and keeps every other one |
| Dashboard.SortDescending | interface/app.py:241 | sorting is a permutation of the batches |
| Dashboard.SortStrictly | interface/app.py:241 | batches with distinct timestamps sort strictly newest first |
| Dashboard.ListedStrictlyDescending | interface/app.py:229-241 | the listed batches are strictly newest first |
| Dashboard.ListedExactly | interface/app.py:225-241 | a batch is listed exactly when some name yields its timestamp and that timestamp splits into it |
| Dashboard.ListAvailableBatches | interface/app.py:216-244 | a failing listing gives no batch; otherwise the loop yields the listed batches |
| Dashboard.TimestampPartOfStored | interface/app.py:226-228 | the dashboard reads `{date}_{time}` from a stored object name |
| Dashboard.BatchOfKey | interface/app.py:232-237 | a batch key splits into its date and its `%H:%M:%S` time |
| Dashboard.DashboardReadsLoaderKey | interface/app.py:226-237 | for a source that does not end in `_`, the dashboard reads from a storage name the very key the loader uses |
| Dashboard.StoredBatchListed | interface/app.py:216-244 | a stored object's batch appears in the dashboard's listing |
| Dashboard.CountsBounded | interface/app.py:270-274 | the two counts together never exceed the number of listed objects |
| Dashboard.CountsAdd | interface/app.py:270-274 | the counts over two listings add up |
| Dashboard.CountBatches | interface/app.py:262-281 | a failing listing counts zeros; otherwise the counts of each source and their total |
| Dashboard.FirstTwenty | interface/app.py:561 | `[:20]` keeps the first twenty elements, or all when there are fewer |
| Dashboard.Selector | interface/app.py:561 | the first option is "most recent", followed by the labels in order |
| Dashboard.HintMap | interface/app.py:562-563 | "most recent" and every label are keys of the choice map |
| Dashboard.HintOfLabel | interface/app.py:563 | a label maps to the hint of its last occurrence |
| Dashboard.MostRecentHint | interface/app.py:562 | "most recent" maps to no hint unless a label collides with it |
| Dashboard.BatchPairs | interface/app.py:563 | each of the first twenty batches is labelled `date à time` and maps to its timestamp |
| Dashboard.NoLabelIsMostRecent | interface/app.py:555-563 | no `<date> à <time>` label can be the "most recent" label, whatever the batch |
| Dashboard.LoadPageHints | interface/app.py:555-563 | on the load page, "most recent" is no hint, and each batch label gives back that batch's timestamp |
| Dashboard.StampLabelInjective | interface/app.py:625 | two timestamps of the same kind with the same label are equal |
| Dashboard.StampPairs | interface/app.py:625 | each of the first twenty timestamps is labelled by `strftime` and maps to its `isoformat()` |
| Dashboard.StampLabelsDistinct | interface/app.py:625 | the labels of distinct warehouse timestamps are distinct |
| Dashboard.TransformPageMostRecent | interface/app.py:617-625 | "most recent" sends no hint, so the transform selects the latest timestamp |
| Dashboard.TransformPageLabel | interface/app.py:617-625 | choosing a timestamp's label sends its `isoformat()`, and the transform selects that very timestamp |

## Left out

- Cloud clients, credentials, and bucket, dataset and table creation are not modelled. The bucket check is a boolean parameter; creating a table is modelled only through the columns it adds.
- The HTTP download and the stream to storage are a `transfer` parameter that says whether each stream succeeded.
- Load jobs, view queries and reading SQL files are parameters: `loadFile`, `execute`, and a file reader returning an outcome.
- The warehouse rows are modelled as a sequence of rows, not as BigQuery tables.
- `datetime.fromisoformat` is a `parse` parameter. Offsets other than UTC and fractional seconds are not modelled.
- Step 3 builds its warehouse client outside the `try` of `obtenir_timestamps_disponibles`; that exception is not modelled. Only a failing query, which gives an empty list, is.
- `formater_sql` queries the warehouse a second time. The model uses the same snapshot of timestamps for both queries, so a timestamp that changes between them is not captured.
- The distinct-timestamps query is modelled as its result, newest first and all in UTC. The dashboard's own copy of that query is modelled by the same snapshot.
- The three stages each call `datetime.now()` or read storage at their own moment. The model has one store and one run time per theorem, so concurrent runs are not modelled.
- `str.format` brace escapes (`{{`, `}}`) and format specs are not modelled; templates are literal text and named fields.
- Keys.Pad4RoundTrip: `%Y` is modelled as four zero-padded digits; years below 1000 differ between platforms.
- Source entries are assumed to carry `name`, `url` and `description`. functions/step1_download.py:205-206 read `name` and `description` before the per-source `try`, so a missing key would raise out of `download_data`; the model's `SourceConfig` always has them.
- Load.GroupPartitionsKept: the key order is stated to list each key once, not to be the order in which keys first appear; nothing downstream depends on that order.
- Load.MatchName: `\d` is modelled as ASCII digits, and `lower()` in `ExtensionFor` as ASCII lower-casing; other Unicode digits and case mappings are not captured.
- Logging, the progress and summary messages, `run_pipeline`'s duration, the Streamlit pages and their widgets, `obtenir_stats_bigquery`, and the command-line entry points are outside this model.
- Dashboard.DashboardReadsLoaderKey: stated for raw folders and source names that do not hold `__`, and sources that do not end in `_`. For other names the dashboard reads a different text than the loader, and the model does not say which.
