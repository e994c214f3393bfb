/**
 * The transform function `lambda_handler` (lambda_function2.py): it takes the
 * first record of an object-created event, waits for and reads that object,
 * projects its listings onto the nine columns and writes the table to a fixed
 * bucket under the derived key.
 */
module LambdaHandler {
  import opened Wrappers
  import opened ObjectKeys
  import opened Projection

  /** The bucket every output goes to, whatever bucket the event names. */
  const TargetBucket: string := "transformed-of-silverzone-json-csv-bucket-s3-gold"

  /** The HTTP-style status the function reports on success. */
  const StatusOk: int := 200

  /** `json.dumps` of the success message: the message inside double quotes. */
  const SuccessBody: string := "\"CSV conversion and s3 upload completed sucessfully!\""

  /** `event["Records"][i]["s3"]`: the bucket name and object key of one notification. */
  datatype S3Record = S3Record(bucket: string, key: string)

  /** The trigger event: its `Records` list. */
  datatype Event = Event(records: seq<S3Record>)

  /** Where an object lives in the store. */
  datatype ObjectId = ObjectId(bucket: string, key: string)

  /**
   * A stored object's body, already decoded: a JSON document, with its
   * `results` list if it has that field, or a CSV rendering of a table.
   */
  datatype Body =
    | Json(results: Option<seq<Record>>)
    | Csv(table: Table)

  /** The dictionary the function returns: `statusCode` and `body`. */
  datatype Response = Response(statusCode: int, body: string)

  /** The exception an invocation ends with instead of a response. */
  datatype HandlerError =
    | NoRecord                      // `event["Records"][0]` on an empty list
    | ObjectNeverAppeared(id: ObjectId)  // the `object_exists` waiter gives up
    | NotJson(id: ObjectId)         // `json.loads` rejects the body
    | NoResults                     // `data['results']` on a document without that field
    | Schema(error: SchemaError)    // `df[selected_cols]` names a column the frame lacks

  /** The object the event's first record names. */
  function Source(event: Event): ObjectId
    requires event.records != []
  {
    ObjectId(event.records[0].bucket, event.records[0].key)
  }

  /** The object an invocation writes. */
  datatype Upload = Upload(id: ObjectId, table: Table)

  /**
   * What one invocation does to a store holding `objects`: the upload it
   * performs, or the error it raises before uploading anything.
   */
  function Transform(event: Event, objects: map<ObjectId, Body>): (r: Result<Upload, HandlerError>)
    ensures event.records == [] ==> r == Err(NoRecord)
    ensures event.records != [] && Source(event) !in objects ==> r == Err(ObjectNeverAppeared(Source(event)))
    ensures event.records != [] && Source(event) in objects && objects[Source(event)].Csv? ==>
      r == Err(NotJson(Source(event)))
    ensures event.records != [] && Source(event) in objects && objects[Source(event)] == Json(None) ==>
      r == Err(NoResults)
    ensures (&& event.records != [] && Source(event) in objects && objects[Source(event)].Json?
             && objects[Source(event)].results.Some? && Project(objects[Source(event)].results.value).Err?) ==>
      r == Err(Schema(Project(objects[Source(event)].results.value).error))
    ensures r.Ok? <==>
      && event.records != []
      && Source(event) in objects
      && objects[Source(event)].Json?
      && objects[Source(event)].results.Some?
      && Project(objects[Source(event)].results.value).Ok?
    ensures r.Ok? ==> r.value.id == ObjectId(TargetBucket, OutputKey(event.records[0].key))
    ensures r.Ok? ==> r.value.table.columns == SelectedColumns
    ensures r.Ok? ==> |r.value.table.rows| == |objects[Source(event)].results.value|
    ensures r.Ok? ==> forall i :: 0 <= i < |r.value.table.rows| ==>
      r.value.table.rows[i] == Row(objects[Source(event)].results.value[i], SelectedColumns)
  {
    if event.records == [] then Err(NoRecord)
    else
      var source := Source(event);
      var target := ObjectId(TargetBucket, OutputKey(event.records[0].key));
      if source !in objects then Err(ObjectNeverAppeared(source))
      else match objects[source]
        case Csv(_) => Err(NotJson(source))
        case Json(None) => Err(NoResults)
        case Json(Some(results)) =>
          match Project(results)
          case Err(e) => Err(Schema(e))
          case Ok(table) => Ok(Upload(target, table))
  }

  /** The store's contents after one invocation: the upload written over whatever was there, or nothing changed. */
  function After(event: Event, objects: map<ObjectId, Body>): (r: map<ObjectId, Body>)
    ensures r.Keys == objects.Keys || (Transform(event, objects).Ok? && r.Keys == objects.Keys + {Transform(event, objects).value.id})
    ensures forall id :: id in objects && (Transform(event, objects).Err? || id != Transform(event, objects).value.id) ==> r[id] == objects[id]
    ensures Transform(event, objects).Ok? ==>
      Transform(event, objects).value.id in r && r[Transform(event, objects).value.id] == Csv(Transform(event, objects).value.table)
  {
    match Transform(event, objects)
    case Ok(u) => objects[u.id := Csv(u.table)]
    case Err(_) => objects
  }

  /**
   * The object store the function talks to, reduced to its contents: one body
   * per (bucket, key).
   */
  class ObjectStore {
    var objects: map<ObjectId, Body>

    constructor (initial: map<ObjectId, Body>)
      ensures objects == initial
    {
      objects := initial;
    }

    /** `put_object`: creates the object or overwrites it. */
    method Put(id: ObjectId, body: Body)
      modifies this
      ensures objects == old(objects)[id := body]
    {
      objects := objects[id := body];
    }

    /** The `object_exists` waiter followed by `get_object`. */
    method Fetch(id: ObjectId) returns (r: Option<Body>)
      ensures id in objects ==> r == Some(objects[id])
      ensures id !in objects ==> r.None?
    {
      r := if id in objects then Some(objects[id]) else None;
    }
  }

  /**
   * `lambda_handler(event, context)`, step by step against the store. It ends
   * as `Transform` says: on success with the 200 response and the table
   * written under the derived key, otherwise with the error and the store untouched.
   */
  method Handle(event: Event, s3: ObjectStore) returns (r: Result<Response, HandlerError>)
    modifies s3
    ensures s3.objects == After(event, old(s3.objects))
    ensures r.Ok? <==> Transform(event, old(s3.objects)).Ok?
    ensures r.Ok? ==> r.value == Response(StatusOk, SuccessBody)
    ensures r.Err? ==> r.error == Transform(event, old(s3.objects)).error
  {
    if |event.records| == 0 {
      return Err(NoRecord);
    }
    var sourceBucket := event.records[0].bucket;
    var objectKey := event.records[0].key;
    var targetFileName := TargetFileName(objectKey);
    var source := ObjectId(sourceBucket, objectKey);
    var fetched := s3.Fetch(source);
    if fetched.None? {
      return Err(ObjectNeverAppeared(source));
    }
    var data := fetched.value;
    if data.Csv? {
      return Err(NotJson(source));
    }
    if data.results.None? {
      return Err(NoResults);
    }
    var f := CopyResults(data.results.value);
    var df := Project(f);
    if df.Err? {
      return Err(Schema(df.error));
    }
    s3.Put(ObjectId(TargetBucket, targetFileName + CsvSuffix), Csv(df.value));
    r := Ok(Response(StatusOk, SuccessBody));
  }

  /** Only `Records[0]` is read: whatever follows it in the event changes nothing. */
  lemma TransformReadsFirstRecordOnly(event: Event, objects: map<ObjectId, Body>)
    requires event.records != []
    ensures Transform(event, objects) == Transform(Event(event.records[..1]), objects)
  {
  }

  /**
   * The output lands in the fixed target bucket under the derived key whatever
   * bucket the event came from: two events naming the same key in different
   * buckets that both succeed write the same object.
   */
  lemma TargetIndependentOfSourceBucket(key: string, bucket1: string, bucket2: string, objects: map<ObjectId, Body>)
    requires Transform(Event([S3Record(bucket1, key)]), objects).Ok?
    requires Transform(Event([S3Record(bucket2, key)]), objects).Ok?
    ensures Transform(Event([S3Record(bucket1, key)]), objects).value.id
         == Transform(Event([S3Record(bucket2, key)]), objects).value.id
         == ObjectId(TargetBucket, OutputKey(key))
  {
  }

  /** A projection that fails uploads nothing and returns no response: the store is left as it was. */
  lemma FailedProjectionUploadsNothing(event: Event, objects: map<ObjectId, Body>, results: seq<Record>)
    requires event.records != []
    requires Source(event) in objects && objects[Source(event)] == Json(Some(results))
    requires Project(results).Err?
    ensures Transform(event, objects) == Err(Schema(Project(results).error))
    ensures After(event, objects) == objects
  {
  }

  /** An empty `results` list fails with every selected column missing, and nothing is written. */
  lemma EmptyResultsUploadNothing(event: Event, objects: map<ObjectId, Body>)
    requires event.records != []
    requires Source(event) in objects && objects[Source(event)] == Json(Some([]))
    ensures Transform(event, objects) == Err(Schema(MissingColumns(SelectedColumns)))
    ensures After(event, objects) == objects
  {
    ProjectEmptyFails();
    FailedProjectionUploadsNothing(event, objects, []);
  }

  /**
   * Re-running the function on the same event, as a duplicate notification
   * does, leaves the store as one run left it: the write is an overwrite with
   * the same table. This holds whenever the event's object is not itself the
   * output object, which the target bucket being a different bucket ensures.
   */
  lemma HandleIdempotent(event: Event, objects: map<ObjectId, Body>)
    requires event.records != []
    requires event.records[0].bucket != TargetBucket
    ensures Transform(event, After(event, objects)) == Transform(event, objects)
    ensures After(event, After(event, objects)) == After(event, objects)
  {
  }
}
