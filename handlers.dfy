/** The entry points of the oldest layout (internal/processor/handlers.go),
    made sequential: a Lambda event or a listed prefix becomes a list of
    objects, and every object is processed before the failures are counted. */
module Handlers {
  import opened Wrappers
  import opened Types
  import opened Fields
  import opened S3
  import Processor

  datatype HandleError =
    | BadUrl(url: UrlError)          // "parse S3 URL: ..."
    | ListError(msg: string)         // "list objects: ..."
    | ObjectsFailed(count: nat)      // "%d objects failed to process"

  /** The objects whose processing fails, in list order. */
  function FailedObjects(store: Store, objects: seq<S3ObjectInfo>): seq<S3ObjectInfo> {
    if objects == [] then []
    else
      var rest := FailedObjects(store, objects[..|objects| - 1]);
      var o := objects[|objects| - 1];
      if store(o).Failure? then rest + [o] else rest
  }

  /** An object is reported as failed iff it is listed and its processing fails. */
  lemma {:induction false} FailedObjectsExactly(store: Store, objects: seq<S3ObjectInfo>, o: S3ObjectInfo)
    ensures o in FailedObjects(store, objects) <==> o in objects && store(o).Failure?
    ensures |FailedObjects(store, objects)| <= |objects|
  {
    if objects != [] {
      var init := objects[..|objects| - 1];
      FailedObjectsExactly(store, init, o);
      assert objects == init + [objects[|objects| - 1]];
    }
  }

  /** `processObjects`: process every object, collect the errors, and fail
      with their number iff there is at least one. */
  method ProcessObjects(f: Fields, parse: Processor.TimeParser, store: Store, objects: seq<S3ObjectInfo>)
    returns (r: Result<(), HandleError>, failed: seq<S3ObjectInfo>)
    ensures failed == FailedObjects(store, objects)
    ensures r == if |failed| > 0 then Failure(ObjectsFailed(|failed|)) else Success(())
  {
    failed := [];
    for i := 0 to |objects|
      invariant failed == FailedObjects(store, objects[..i])
    {
      assert objects[..i + 1][..i] == objects[..i];
      var err, _ := Processor.ProcessLogs(f, parse, store(objects[i]));
      if err.Some? {
        failed := failed + [objects[i]];
      }
    }
    assert objects[..|objects|] == objects;
    if |failed| > 0 {
      return Failure(ObjectsFailed(|failed|)), failed;
    }
    return Success(()), failed;
  }

  /** `HandleLambdaEvent`: one object per event record, in order, then
      `processObjects` over them. */
  method HandleLambdaEvent(f: Fields, parse: Processor.TimeParser, store: Store, records: seq<EventRecord>)
    returns (r: Result<(), HandleError>, objects: seq<S3ObjectInfo>)
    ensures |objects| == |records|
    ensures forall i :: 0 <= i < |records| ==>
              objects[i] == ObjectOf(records[i])
    ensures var failed := FailedObjects(store, objects);
            r == if |failed| > 0 then Failure(ObjectsFailed(|failed|)) else Success(())
  {
    objects := [];
    for i := 0 to |records|
      invariant |objects| == i
      invariant forall k :: 0 <= k < i ==> objects[k] == ObjectOf(records[k])
    {
      objects := objects + [ObjectOf(records[i])];
    }
    var failed;
    r, failed := ProcessObjects(f, parse, store, objects);
  }

  /** `HandleS3URL`: parse the URL, collect the keys of every page, following
      the continuation tokens, and only then process them. A listing error
      returns before anything is processed. The `i`-th listing call receives
      `pages[i]`. */
  method HandleS3URL(f: Fields, parse: Processor.TimeParser, store: Store, url: string, pages: seq<ListResponse>)
    returns (r: Result<(), HandleError>, requests: seq<ListRequest>, processed: seq<S3ObjectInfo>)
    requires ParseS3URL(url).Success? ==> exists k :: 0 <= k < |pages| && Final(pages[k])
    ensures ParseS3URL(url).Failure? ==>
              r == Failure(BadUrl(ParseS3URL(url).error)) && requests == [] && processed == []
    ensures ParseS3URL(url).Success? ==>
              var bucket, prefix := ParseS3URL(url).value.0, ParseS3URL(url).value.1;
              && ListRun(bucket, prefix, pages, requests)
              && (pages[|requests| - 1].ListFailed? ==>
                    r == Failure(ListError(pages[|requests| - 1].msg)) && processed == [])
              && (pages[|requests| - 1].Listed? ==>
                    && processed == Objects(bucket, pages, |requests|)
                    && var failed := FailedObjects(store, processed);
                       r == if |failed| > 0 then Failure(ObjectsFailed(|failed|)) else Success(()))
  {
    var parsed := ParseS3URL(url);
    if parsed.Failure? {
      return Failure(BadUrl(parsed.error)), [], [];
    }
    r, requests, processed := ListThenProcess(f, parse, store, parsed.value.0, parsed.value.1, pages);
  }

  /** The part of `HandleS3URL` after the URL is parsed. */
  method ListThenProcess(f: Fields, parse: Processor.TimeParser, store: Store,
                         bucket: string, prefix: string, pages: seq<ListResponse>)
    returns (r: Result<(), HandleError>, requests: seq<ListRequest>, processed: seq<S3ObjectInfo>)
    requires exists k :: 0 <= k < |pages| && Final(pages[k])
    ensures ListRun(bucket, prefix, pages, requests)
    ensures pages[|requests| - 1].ListFailed? ==>
              r == Failure(ListError(pages[|requests| - 1].msg)) && processed == []
    ensures pages[|requests| - 1].Listed? ==>
              && processed == Objects(bucket, pages, |requests|)
              && var failed := FailedObjects(store, processed);
                 r == if |failed| > 0 then Failure(ObjectsFailed(|failed|)) else Success(())
  {
    var objects, listErr;
    objects, requests, listErr := ListObjects(bucket, prefix, pages);
    if listErr.Some? {
      return Failure(ListError(listErr.value)), requests, [];
    }
    var failed;
    r, failed := ProcessObjects(f, parse, store, objects);
    processed := objects;
  }
}
