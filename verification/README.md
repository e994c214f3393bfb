# Zillow listings pipeline — a Dafny model of its naming, projection and ordering logic

The pipeline has two parts that share only object storage.

- **Transform function** (`lambda_handler`). It is triggered when a JSON listings document lands in a bucket. It reads the document's `results` list and keeps nine columns. It writes the resulting table as CSV to a fixed target bucket. The output key is the input key with its last five characters cut off, followed by `.csv`.
- **Ingestion workflow** (an Airflow DAG of four tasks chained with `>>`). The workflow:
  1. names the run by the clock reading taken when the DAG file is loaded (`%d%m%Y%H%M%S`);
  2. writes the API response to `/home/ubuntu/response_data_<id>.json`;
  3. moves that file into the landing bucket;
  4. waits for `response_data_<id>.csv` in the target bucket;
  5. copies that CSV into the warehouse.

The model covers the logic under this wiring:

- the key derivation, with Python's slice semantics (`ObjectKeys`);
- the copy loop, the frame built from the records and the nine-column selection, including pandas' failure rule (`Projection`);
- the handler as a step-by-step method over an object store. It is proved against a pure function that gives the upload or the error (`LambdaHandler`);
- run-identifier formatting, with a parser that reads an identifier back (`RunId`);
- the names the four tasks use, and the `>>` chain as a dependency relation (`Workflow`).

Two cross-component lemmas tie these together:

- `Workflow.RunNamesAgree`: the object the transform function writes for the staged JSON is exactly the one the sensor waits for and the loader reads.
- `Workflow.PipelineRunsInChainOrder`: extract, move, sense, load is the only order the scheduler may use.

Two behaviours of the code are worth stating plainly:

- **Missing columns.** `df[selected_cols]` fails only when a column is absent from every record. A record that lacks a field gets an empty cell. An empty `results` fails, because the frame built from it has no columns.
- **Short keys.** `object_key[:-5]` of a key of at most five characters is `""`, so the output key is `.csv`.

## Model

| member | source | states |
|---|---|---|
| ObjectKeys.TargetFileName | lambda_function2.py:15 | `object_key[:-5]` removes exactly min(5, len) trailing characters, and what it keeps followed by what it removed is the key |
| ObjectKeys.OutputKey | lambda_function2.py:46 | the output key is a prefix of the input key, of length len−min(5,len), followed by `.csv` |
| ObjectKeys.OutputKeyOfJson | lambda_function2.py:15 | any key `stem + ".json"` maps to `stem + ".csv"` |
| ObjectKeys.OutputKeyOfShortKey | lambda_function2.py:15 | a key of at most five characters maps to exactly `.csv`, without failing |
| ObjectKeys.OutputKeyInjectiveOnJson | lambda_function2.py:46 | distinct JSON stems never share an output key |
| ObjectKeys.OutputKeyIsNotExtensionAware | lambda_function2.py:15 | the rule counts characters rather than finding an extension: `data.jsonl` → `data..csv`, `a.b.json` → `a.b.csv`, `x.csv` → `.csv` |
| Projection.CopyResults | lambda_function2.py:30-32 | the list built by the append loop equals `results`: same length, same elements, same order |
| Projection.FrameColumns | lambda_function2.py:33 | the columns of `pd.DataFrame(f)`: none for an empty list, and every record's field names among them (`FrameColumnsArePresentFields` gives the converse) |
| Projection.FrameColumnsArePresentFields | lambda_function2.py:33 | a column of `pd.DataFrame(f)` is exactly a field name that occurs in some record |
| Projection.Absent | lambda_function2.py:38 | the columns reported missing are exactly the selected columns the frame lacks |
| Projection.Row | lambda_function2.py:38 | a row has one cell per selected column: the record's value, or absent when the record lacks that field (a definition; `Select` gives it its meaning) |
| Projection.Select | lambda_function2.py:33-38 | selection succeeds iff every selected column occurs in some record. On success: header = the selected columns, one row per record in order, each row as `Row` gives it. On failure: the error lists exactly the columns absent from every record |
| Projection.Project | lambda_function2.py:36-38 | the table has exactly the nine columns in their fixed order and one row per record, each row that record's nine cells (value or empty). It fails iff one of the nine occurs in no record |
| Projection.ProjectEmptyFails | lambda_function2.py:33-38 | an empty `results` fails with all nine columns missing |
| Projection.ProjectCompleteRecords | lambda_function2.py:36-38 | when `results` is non-empty and every record has all nine fields, the projection succeeds and every cell holds that record's value |
| Projection.SelectIgnoresOtherFields | lambda_function2.py:38 | records that agree on the selected columns project identically; extra fields make no difference |
| Projection.AbsentAgrees | lambda_function2.py:38 | which columns are missing depends only on whether the frame has the selected columns |
| LambdaHandler.Transform | lambda_function2.py:8-47 | an invocation succeeds iff all of these hold: there is a first record; its object exists; the object is a JSON document with `results`; the projection succeeds. The upload goes to the fixed target bucket under `OutputKey(key)`, with the nine columns and, for each result in order, the row of its nine cells. Each failure names its cause: no record → `NoRecord`; a missing object → `ObjectNeverAppeared` of that object; a CSV body → `NotJson` of that object; no `results` → `NoResults`; a failed projection → `Schema` with the projection's missing columns |
| LambdaHandler.After | lambda_function2.py:47 | after a successful invocation the upload's key holds the projected table, added or overwritten; every other object is unchanged, and a failed invocation changes nothing |
| LambdaHandler.ObjectStore.Put | lambda_function2.py:47 | `put_object` creates or overwrites exactly one object |
| LambdaHandler.ObjectStore.Fetch | lambda_function2.py:17-20 | the waiter then `get_object` yields the body stored under the id when the object exists, and nothing when it does not |
| LambdaHandler.Handle | lambda_function2.py:7-52 | the handler leaves the store as `After` says. It returns `{statusCode: 200, body}` exactly when `Transform` succeeds, and otherwise raises `Transform`'s error |
| LambdaHandler.TransformReadsFirstRecordOnly | lambda_function2.py:8-9 | only `Records[0]` is read; later records change nothing |
| LambdaHandler.TargetIndependentOfSourceBucket | lambda_function2.py:8-14 | the target bucket is the fixed constant, whatever the source bucket |
| LambdaHandler.FailedProjectionUploadsNothing | lambda_function2.py:38-52 | when the projection fails, no object is uploaded and no 200 response is returned |
| LambdaHandler.EmptyResultsUploadNothing | lambda_function2.py:31-38 | an empty `results` fails with all nine columns missing and uploads nothing |
| LambdaHandler.HandleIdempotent | lambda_function2.py:47 | a duplicate invocation, from a bucket other than the target, yields the same upload and leaves the store as one invocation did |
| RunId.Digits | zillowanalytics.py:14 | a zero-padded field has exactly its width and only decimal digits (`ValueOfDigits` shows it reads back as its number) |
| RunId.Format | zillowanalytics.py:13-14 | a run identifier is 14 decimal digits |
| RunId.ValueOfDigits | zillowanalytics.py:14 | a zero-padded field reads back as the number it pads |
| RunId.FormatParseRoundTrip | zillowanalytics.py:14 | the identifier is day, month, year, hour, minute, second zero-padded in that order: parsing it gives the time back |
| RunId.FormatInjective | zillowanalytics.py:14 | distinct times give distinct run identifiers |
| Workflow.OutputFilePath | zillowanalytics.py:29 | the local JSON file starts with `/home/ubuntu/`; for an identifier without '/', it lies directly in that directory (the path is `/home/ubuntu/` followed by its basename) and its name is `response_data_<id>.json` |
| Workflow.CsvFileName | zillowanalytics.py:30 | the CSV name is the transform function's output key for the JSON file's name `response_data_<id>.json` |
| Workflow.Basename | zillowanalytics.py:70 | the key `aws s3 mv` gives is the path's trailing slash-free component |
| Workflow.BasenameOfFileInDir | zillowanalytics.py:70 | a file directly inside a directory gets its own name as key |
| Workflow.ExtractZillowData | zillowanalytics.py:29-38 | returns exactly two items. The first stages under `response_data_<id>.json`. Applying the transform function's rule to that key gives the second item |
| Workflow.XcomItem | zillowanalytics.py:75 | a template item exists iff the index is in range, and it is that element (a definition; used by `RunNamesAgree`) |
| Workflow.StagedObject | zillowanalytics.py:68-71 | the move task stages item 0 in the landing bucket under exactly `Basename(item 0)` |
| Workflow.AwaitedObject | zillowanalytics.py:73-81 | the sensor waits for item 1 in `s3_bucket` (a definition; `RunNamesAgree` ties it to the transform's upload) |
| Workflow.LoadedObject | zillowanalytics.py:83-92 | the loader copies item 1 from `s3_bucket` (a definition; `RunNamesAgree` shows it is the sensor's object) |
| Workflow.RunNamesAgree | zillowanalytics.py:29-30 | for every valid clock reading, the sensor and the loader address the same object. When the transform function is run on the staged JSON and succeeds, it writes exactly that object |
| Workflow.Chain | zillowanalytics.py:95 | `a >> b >> c >> d` puts each task directly upstream of the next (`ChainEdges` shows there is no other edge) |
| Workflow.ChainEdges | zillowanalytics.py:95 | `a >> b >> c >> d` makes each task the direct upstream of the next and declares no other edge |
| Workflow.ChainOrderIsValid | zillowanalytics.py:95 | running a chain in its own order respects every dependency |
| Workflow.ValidRunFollowsChain | zillowanalytics.py:95 | any order that starts each task only after its upstream has completed follows the chain step for step |
| Workflow.ChainRunIsUnique | zillowanalytics.py:95 | a chain of distinct tasks has exactly one valid order: its own |
| Workflow.PipelineRunsInChainOrder | zillowanalytics.py:95 | extract → move → sense → load is a valid order and the only one |

## Left out

- Object storage calls are reduced to a map from (bucket, key) to a decoded body:
  - the waiter, `get_object` and `put_object` are modelled, but not their network behaviour;
  - an object that does not exist when the function looks makes the waiter give up. The waiter's retry timing and eventual consistency are not modelled.
- UTF-8 decoding and `json.loads` are library parsing, so a stored body is already parsed:
  - a JSON document, with or without `results`;
  - or a CSV table, which fails as not JSON.
  A `results` field that is not a list of objects is not modelled.
- `df.to_csv` serialisation is not modelled. Quoting, NaN rendering and number formatting are pandas-defined, so the uploaded body is the projected table. Cell values are opaque.
- The order of the frame's own columns before selection is not kept: the selection imposes its own order.
- `print(df)` is output only and is left out.
- `requests.get`, the `json.dump` to local disk and the removal of the local file by `aws s3 mv` are HTTP and file I/O.
- Reading the API-key config file and `datetime.now()` are environment reads. `datetime.now()` runs when the DAG file is imported, not when a run starts; the model takes its reading as an input `Timestamp`.
- Which bucket's notifications trigger the transform function is deployment configuration, not stated in any source file; the model runs the function on the staged object's event.
- RunId.Format: `%Y` is modelled as four zero-padded digits. For years below 1000 some C libraries print fewer digits. A run's clock never reaches such years.
- Airflow machinery is not modelled: scheduling, retries and retry delay, `catchup`, the sensor's 60-second timeout and 5-second poke interval, and the Redshift COPY with `IGNOREHEADER 1`. Only the names the tasks consume and the declared `>>` order are modelled.
- Concurrent transform invocations and overlapping DAG runs are a concurrency concern outside this sequential model.
