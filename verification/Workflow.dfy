/**
 * The ingestion workflow (zillowanalytics.py): the names the extract task
 * gives its files, the objects the move, sensor and load tasks address
 * through the extract task's return value, and the `>>` chain that orders
 * the four tasks. Its one cross-component promise: the object the sensor
 * waits for is exactly the object the transform function writes for the
 * file the move task stages.
 */
module Workflow {
  import opened Wrappers
  import opened ObjectKeys
  import RunId
  import opened LambdaHandler

  /** `s3_bucket`: where the sensor looks and the loader copies from. */
  const S3Bucket: string := "transformed-of-silverzone-json-csv-bucket-s3-gold"

  /** The bucket `aws s3 mv` stages the raw JSON in. */
  const LandingBucket: string := "zillow-data-analytics-end-to-end-project-2024"

  /** The local directory the extract task writes its JSON file to. */
  const LocalDir: string := "/home/ubuntu/"

  const FilePrefix: string := "response_data_"

  /** `output_file_path`: the local JSON file of one run. */
  function OutputFilePath(dtString: string): (r: string)
    ensures |LocalDir| <= |r| && r[..|LocalDir|] == LocalDir
    ensures '/' !in dtString ==> Basename(r) == FilePrefix + dtString + JsonSuffix
    ensures '/' !in dtString ==> r == LocalDir + Basename(r)
  {
    var name := FilePrefix + dtString + JsonSuffix;
    if '/' in dtString then LocalDir + name
    else
      assert '/' !in name by {
        assert forall c :: c in name ==> c in FilePrefix || c in dtString || c in JsonSuffix;
      }
      BasenameOfFileInDir(LocalDir, name);
      LocalDir + name
  }

  /**
   * `file_str`: the name of the CSV the rest of the run waits for and loads.
   * It is the transform function's output key for the JSON file's own name.
   */
  function CsvFileName(dtString: string): (r: string)
    ensures r == OutputKey(FilePrefix + dtString + JsonSuffix)
  {
    OutputKeyOfJson(FilePrefix + dtString);
    FilePrefix + dtString + CsvSuffix
  }

  /**
   * The last component of a path: everything after its last '/', the whole
   * path if it has none. This is the key `aws s3 mv FILE s3://BUCKET/` gives
   * the object.
   */
  function Basename(path: string): (r: string)
    ensures '/' !in r
    ensures |r| <= |path| && path[|path| - |r|..] == r
    ensures |r| < |path| ==> path[|path| - |r| - 1] == '/'
  {
    if path == [] then []
    else if path[|path| - 1] == '/' then []
    else Basename(path[..|path| - 1]) + [path[|path| - 1]]
  }

  /** A path that ends in a directory and then a slash-free name has that name as its basename. */
  lemma {:induction false} BasenameOfFileInDir(dir: string, name: string)
    requires dir != [] && dir[|dir| - 1] == '/'
    requires '/' !in name
    ensures Basename(dir + name) == name
  {
    if name == [] {
      assert dir + name == dir;
    } else {
      var path := dir + name;
      assert path[..|path| - 1] == dir + name[..|name| - 1];
      assert name[|name| - 1] in name;
      BasenameOfFileInDir(dir, name[..|name| - 1]);
      assert name[..|name| - 1] + [name[|name| - 1]] == name;
    }
  }

  /**
   * `extract_zillow_data`'s return value (the HTTP call and the file write
   * left out): the local JSON path first, the CSV name second. Staging the
   * first under its basename and applying the transform function's naming
   * rule to that key gives back the second.
   */
  function ExtractZillowData(dtString: string): (r: seq<string>)
    ensures |r| == 2
    ensures '/' !in dtString ==> Basename(r[0]) == FilePrefix + dtString + JsonSuffix
    ensures '/' !in dtString ==> OutputKey(Basename(r[0])) == r[1]
  {
    [OutputFilePath(dtString), CsvFileName(dtString)]
  }

  /**
   * `ti.xcom_pull(...)[i]` inside a template: the i-th item the extract task
   * returned. Templates render with strict undefined values, so an index past
   * the end is an error rather than an empty string.
   */
  function XcomItem(returned: seq<string>, i: nat): (r: Option<string>)
    ensures r.Some? <==> i < |returned|
    ensures r.Some? ==> r.value == returned[i]
  {
    if i < |returned| then Some(returned[i]) else None
  }

  /** `tsk_load_to_s3`: the object `aws s3 mv` creates from item 0. */
  function StagedObject(returned: seq<string>): (r: Option<ObjectId>)
    ensures r.Some? <==> |returned| >= 1
    ensures r.Some? ==> r.value.bucket == LandingBucket && r.value.key == Basename(returned[0])
    ensures r.Some? ==> '/' !in r.value.key
  {
    match XcomItem(returned, 0)
    case None => None
    case Some(localPath) => Some(ObjectId(LandingBucket, Basename(localPath)))
  }

  /** `tsk_is_file_in_s3_available`: the object the sensor polls for, from item 1. */
  function AwaitedObject(returned: seq<string>): (r: Option<ObjectId>)
    ensures r.Some? <==> |returned| >= 2
    ensures r.Some? ==> r.value == ObjectId(S3Bucket, returned[1])
  {
    match XcomItem(returned, 1)
    case None => None
    case Some(key) => Some(ObjectId(S3Bucket, key))
  }

  /** `tsk_transfer_s3_to_redshift`: the object the warehouse copy reads, from item 1. */
  function LoadedObject(returned: seq<string>): (r: Option<ObjectId>)
    ensures r.Some? <==> |returned| >= 2
    ensures r.Some? ==> r.value == ObjectId(S3Bucket, returned[1])
  {
    match XcomItem(returned, 1)
    case None => None
    case Some(key) => Some(ObjectId(S3Bucket, key))
  }

  /**
   * The naming contract between the two components. For any clock reading,
   * the sensor and the loader address the same object, and when the transform
   * function is run on the object the move task stages and succeeds, it writes
   * exactly that object.
   */
  lemma RunNamesAgree(t: RunId.Timestamp, objects: map<ObjectId, Body>)
    requires RunId.Valid(t)
    ensures StagedObject(ExtractZillowData(RunId.Format(t))).Some?
    ensures AwaitedObject(ExtractZillowData(RunId.Format(t))).Some?
    ensures AwaitedObject(ExtractZillowData(RunId.Format(t))) == LoadedObject(ExtractZillowData(RunId.Format(t)))
    ensures
      var staged := StagedObject(ExtractZillowData(RunId.Format(t))).value;
      var upload := Transform(Event([S3Record(staged.bucket, staged.key)]), objects);
      upload.Ok? ==> Some(upload.value.id) == AwaitedObject(ExtractZillowData(RunId.Format(t)))
  {
  }

  /** The four tasks of the DAG. */
  datatype Task = Extract | LoadToS3 | IsFileInS3Available | TransferS3ToRedshift

  /** The order the DAG file chains them in with `>>`. */
  const Pipeline: seq<Task> := [Extract, LoadToS3, IsFileInS3Available, TransferS3ToRedshift]

  /** The dependency edges `a >> b >> c ...` declares: each task upstream of the next. */
  function Chain(tasks: seq<Task>): (r: set<(Task, Task)>)
    ensures forall i :: 0 <= i < |tasks| - 1 ==> (tasks[i], tasks[i + 1]) in r
  {
    if |tasks| < 2 then {} else {(tasks[0], tasks[1])} + Chain(tasks[1..])
  }

  lemma {:induction false} ChainEdges(tasks: seq<Task>, u: Task, v: Task)
    ensures (u, v) in Chain(tasks) <==> exists i :: 0 <= i < |tasks| - 1 && tasks[i] == u && tasks[i + 1] == v
  {
    if |tasks| >= 2 {
      ChainEdges(tasks[1..], u, v);
      if (u, v) in Chain(tasks[1..]) {
        var i :| 0 <= i < |tasks[1..]| - 1 && tasks[1..][i] == u && tasks[1..][i + 1] == v;
        assert tasks[i + 1] == u && tasks[i + 2] == v;
      }
      if exists i :: 0 <= i < |tasks| - 1 && tasks[i] == u && tasks[i + 1] == v {
        var i :| 0 <= i < |tasks| - 1 && tasks[i] == u && tasks[i + 1] == v;
        if i > 0 {
          assert tasks[1..][i - 1] == u && tasks[1..][i] == v;
        }
      }
    }
  }

  predicate Distinct(s: seq<Task>)
  {
    forall i, j :: 0 <= i < j < |s| ==> s[i] != s[j]
  }

  lemma PrefixMember(s: seq<Task>, k: int, i: int)
    requires 0 <= k < |s| && 0 <= i <= |s|
    ensures k < i ==> s[k] in s[..i]
  {
    if k < i {
      assert s[..i][k] == s[k];
    }
  }

  lemma NotInPrefix(s: seq<Task>, i: int)
    requires Distinct(s)
    requires 0 <= i < |s|
    ensures s[i] !in s[..i]
  {
  }

  lemma PrefixIndex(s: seq<Task>, m: int, i: int)
    requires Distinct(s)
    requires 0 <= m < |s| && 0 <= i <= |s|
    requires s[m] in s[..i]
    ensures m < i
  {
  }

  /**
   * An order the scheduler may run `tasks` in under `edges`: each task once,
   * and each started only when all its upstream tasks have completed.
   */
  ghost predicate ValidRun(order: seq<Task>, tasks: seq<Task>, edges: set<(Task, Task)>)
  {
    && |order| == |tasks|
    && Distinct(order)
    && (forall i :: 0 <= i < |order| ==> order[i] in tasks)
    && (forall i, u :: 0 <= i < |order| && (u, order[i]) in edges ==> u in order[..i])
  }

  /** Running a chain in its own order respects every edge. */
  lemma ChainOrderIsValid(tasks: seq<Task>)
    requires Distinct(tasks)
    ensures ValidRun(tasks, tasks, Chain(tasks))
  {
    forall i, u | 0 <= i < |tasks| && (u, tasks[i]) in Chain(tasks) ensures u in tasks[..i] {
      ChainEdges(tasks, u, tasks[i]);
      var k :| 0 <= k < |tasks| - 1 && tasks[k] == u && tasks[k + 1] == tasks[i];
      assert k + 1 == i;
      assert tasks[..i][k] == u;
    }
  }

  /** The first `n` steps of any valid run of a chain are the chain's first `n` tasks. */
  lemma {:induction false} ValidRunFollowsChain(order: seq<Task>, tasks: seq<Task>, n: nat)
    requires Distinct(tasks)
    requires ValidRun(order, tasks, Chain(tasks))
    requires n <= |tasks|
    ensures order[..n] == tasks[..n]
  {
    if n > 0 {
      ValidRunFollowsChain(order, tasks, n - 1);
      var i := n - 1;
      var k :| 0 <= k < |tasks| && tasks[k] == order[i];
      // Not earlier than i: the first i steps are tasks[..i], and order[i] is none of them.
      NotInPrefix(order, i);
      PrefixMember(tasks, k, i);
      // Not later than i: tasks[k - 1] is upstream of order[i], so it is among the first i steps.
      if k > 0 {
        assert (tasks[k - 1], tasks[k]) in Chain(tasks);
        PrefixIndex(tasks, k - 1, i);
      }
      assert order[..n] == order[..i] + [order[i]];
      assert tasks[..n] == tasks[..i] + [tasks[i]];
    }
  }

  /** A chain of distinct tasks has exactly one valid run: its own order. */
  lemma ChainRunIsUnique(order: seq<Task>, tasks: seq<Task>)
    requires Distinct(tasks)
    ensures ValidRun(order, tasks, Chain(tasks)) <==> order == tasks
  {
    ChainOrderIsValid(tasks);
    if ValidRun(order, tasks, Chain(tasks)) {
      ValidRunFollowsChain(order, tasks, |tasks|);
    }
  }

  /**
   * The DAG is a strict linear chain: extract, move, sense, load is an order
   * the scheduler may use, and it is the only one.
   */
  lemma PipelineRunsInChainOrder(order: seq<Task>)
    ensures ValidRun(order, Pipeline, Chain(Pipeline)) <==> order == Pipeline
  {
    ChainRunIsUnique(order, Pipeline);
  }
}
