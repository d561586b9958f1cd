/** What both generations of the processor share about the object store: the
    `s3://bucket/prefix` URL of the command-line mode, the decompressed and
    tokenised content of one object, and the `ListObjectsV2` continuation loop.
    The store itself is an oracle: its answers are parameters. */
module S3 {
  import opened Wrappers
  import opened Text
  import opened Types
  import opened Seqs

  const Scheme := "s3://"

  datatype UrlError =
    | MissingScheme     // "must start with s3://"
    | MissingSeparator  // "missing path separator"

  /** `parseS3URL`: the bucket is the text between the scheme and the first
      '/', the prefix all that follows that '/'. */
  function ParseS3URL(url: string): (r: Result<(string, string), UrlError>)
    ensures r == Failure(MissingScheme) <==> !HasPrefix(url, Scheme)
    ensures r == Failure(MissingSeparator) <==> HasPrefix(url, Scheme) && '/' !in url[|Scheme|..]
    ensures r.Success? ==> '/' !in r.value.0 && Scheme + r.value.0 + "/" + r.value.1 == url
  {
    if !HasPrefix(url, Scheme) then Failure(MissingScheme)
    else
      var path := url[|Scheme|..];
      var idx := IndexOf(path, '/');
      if idx == -1 then Failure(MissingSeparator)
      else
        SplitAtSlash(url, idx);
        Success((path[..idx], path[idx + 1..]))
  }

  /** Cutting the path of a URL at a '/' and putting the parts back together
      gives the URL. */
  lemma SplitAtSlash(url: string, idx: nat)
    requires HasPrefix(url, Scheme) && idx < |url| - |Scheme| && url[|Scheme| + idx] == '/'
    ensures var path := url[|Scheme|..];
            Scheme + path[..idx] + "/" + path[idx + 1..] == url
  {
    var path := url[|Scheme|..];
    assert url == Scheme + path;
    assert path == path[..idx] + "/" + path[idx + 1..];
  }

  /** The converse of the round trip: a URL built from a bucket without '/'
      and any prefix parses back into exactly those two parts. */
  lemma ParseS3URLOfParts(bucket: string, prefix: string)
    requires '/' !in bucket
    ensures ParseS3URL(Scheme + bucket + "/" + prefix) == Success((bucket, prefix))
  {
    var url := Scheme + bucket + "/" + prefix;
    assert HasPrefix(url, Scheme) by { assert url[..|Scheme|] == Scheme; }
    var path := url[|Scheme|..];
    assert path == bucket + "/" + prefix;
    assert path[|bucket|] == '/' && path[..|bucket|] == bucket;
    IndexOfAt(path, '/', |bucket|);
    assert path[|bucket| + 1..] == prefix;
  }

  /** One record of an S3 event notification: the bucket name and object key. */
  datatype EventRecord = EventRecord(bucketName: string, objectKey: string)

  /** The object a notification record names. */
  function ObjectOf(r: EventRecord): S3ObjectInfo {
    S3ObjectInfo(r.bucketName, r.objectKey)
  }

  /** One item of the decompressed object as the CSV reader yields it; the end
      of the sequence is `io.EOF`. */
  datatype ReadItem =
    | Record(fields: seq<string>)
    | ReadError(msg: string)

  /** The content of an object: its record stream, or the `GetObject` error. */
  type Store = S3ObjectInfo -> Result<seq<ReadItem>, string>

  /** One `ListObjectsV2` answer: a page of keys with the truncation flag and
      token, or the call's error. A nil `IsTruncated` is `None`. */
  datatype ListResponse =
    | Listed(keys: seq<string>, isTruncated: Option<bool>, nextToken: Option<string>)
    | ListFailed(msg: string)

  datatype ListRequest = ListRequest(bucket: string, prefix: string, token: Option<string>)

  /** A response after which the loop asks for no further page. */
  predicate Final(resp: ListResponse) {
    resp.ListFailed? || resp.isTruncated != Some(true)
  }

  /** The continuation token sent with request `j`: none for the first, the
      previous page's `NextContinuationToken` after that. */
  function TokenBefore(pages: seq<ListResponse>, j: nat): Option<string>
    requires j <= |pages|
  {
    if j == 0 || pages[j - 1].ListFailed? then None else pages[j - 1].nextToken
  }

  /** The objects named by a list of keys, each in the requested bucket. */
  function InBucket(bucket: string, keys: seq<string>): (r: seq<S3ObjectInfo>)
    ensures |r| == |keys|
    ensures forall k :: 0 <= k < |r| ==> r[k] == S3ObjectInfo(bucket, keys[k])
  {
    seq(|keys|, k requires 0 <= k < |keys| => S3ObjectInfo(bucket, keys[k]))
  }

  /** The objects a page names, each in the requested bucket; none for an
      error. */
  function PageObjects(bucket: string, resp: ListResponse): seq<S3ObjectInfo> {
    if resp.ListFailed? then [] else InBucket(bucket, resp.keys)
  }

  /** The objects of the first `n` pages, page after page. */
  function Objects(bucket: string, pages: seq<ListResponse>, n: nat): seq<S3ObjectInfo>
    requires n <= |pages|
  {
    if n == 0 then [] else Objects(bucket, pages, n - 1) + PageObjects(bucket, pages[n - 1])
  }

  /** The objects of the first `n` pages do not depend on the pages after
      them. */
  lemma {:induction false} ObjectsPrefix(bucket: string, pages: seq<ListResponse>, more: seq<ListResponse>, n: nat)
    requires n <= |pages|
    ensures Objects(bucket, pages + more, n) == Objects(bucket, pages, n)
  {
    if n > 0 {
      ObjectsPrefix(bucket, pages, more, n - 1);
      assert (pages + more)[n - 1] == pages[n - 1];
    }
  }

  /** Every listed object is in the requested bucket and carries a key listed
      on one of the first `n` pages; conversely every such key is listed. */
  lemma {:induction false} ObjectsInBucket(bucket: string, pages: seq<ListResponse>, n: nat, o: S3ObjectInfo)
    requires n <= |pages|
    ensures o in Objects(bucket, pages, n) <==>
              o.bucket == bucket && exists j :: 0 <= j < n && pages[j].Listed? && o.key in pages[j].keys
  {
    if n > 0 {
      ObjectsInBucket(bucket, pages, n - 1, o);
      var last := pages[n - 1];
      if last.Listed? {
        var keys := last.keys;
        var page := InBucket(bucket, keys);
        assert o in page <==> o.bucket == bucket && o.key in keys by {
          if o.bucket == bucket && o.key in keys {
            var k :| 0 <= k < |keys| && keys[k] == o.key;
            assert page[k] == o;
          }
        }
      }
    }
  }

  /** The first `n` requests of a run over `pages`. */
  function Requests(bucket: string, prefix: string, pages: seq<ListResponse>, n: nat): (r: seq<ListRequest>)
    requires n <= |pages|
    ensures |r| == n
  {
    if n == 0 then [] else Requests(bucket, prefix, pages, n - 1) + [ListRequest(bucket, prefix, TokenBefore(pages, n - 1))]
  }

  /** Request `j` of the first `n` carries the token page `j - 1` left. */
  lemma {:induction false} RequestsAt(bucket: string, prefix: string, pages: seq<ListResponse>, n: nat)
    requires n <= |pages|
    ensures forall j :: 0 <= j < n ==> Requests(bucket, prefix, pages, n)[j] == ListRequest(bucket, prefix, TokenBefore(pages, j))
  {
    if n > 0 {
      RequestsAt(bucket, prefix, pages, n - 1);
    }
  }

  /** `requests` is the run of calls the loop makes over `pages`: one per page
      up to and including the first final one, each carrying the token left
      by the page before it. */
  predicate ListRun(bucket: string, prefix: string, pages: seq<ListResponse>, requests: seq<ListRequest>) {
    && 1 <= |requests| <= |pages|
    && (forall j :: 0 <= j < |requests| - 1 ==> !Final(pages[j]))
    && Final(pages[|requests| - 1])
    && requests == Requests(bucket, prefix, pages, |requests|)
  }

  /** A run ends at its first final page. */
  lemma ListRunEnds(bucket: string, prefix: string, pages: seq<ListResponse>, requests: seq<ListRequest>)
    requires 1 <= |requests| <= |pages| && requests == Requests(bucket, prefix, pages, |requests|)
    requires forall j :: 0 <= j < |requests| - 1 ==> !Final(pages[j])
    requires Final(pages[|requests| - 1])
    ensures ListRun(bucket, prefix, pages, requests)
  {
  }

  /** The run is determined by the pages: it ends at the first final page. */
  lemma ListRunUnique(bucket: string, prefix: string, pages: seq<ListResponse>, r1: seq<ListRequest>, r2: seq<ListRequest>)
    requires ListRun(bucket, prefix, pages, r1) && ListRun(bucket, prefix, pages, r2)
    ensures r1 == r2
  {
  }

  /** The `ListObjectsV2` loop: request a page with the current token, take its
      keys, stop at an error or at a page that is not truncated, otherwise
      carry its `NextContinuationToken` into the next request. The `i`-th
      request receives `pages[i]`. */
  method ListObjects(bucket: string, prefix: string, pages: seq<ListResponse>)
    returns (objects: seq<S3ObjectInfo>, requests: seq<ListRequest>, err: Option<string>)
    requires exists k :: 0 <= k < |pages| && Final(pages[k])
    ensures ListRun(bucket, prefix, pages, requests)
    ensures err == if pages[|requests| - 1].ListFailed? then Some(pages[|requests| - 1].msg) else None
    ensures objects == Objects(bucket, pages, |requests|)
  {
    ghost var last :| 0 <= last < |pages| && Final(pages[last]);
    var token: Option<string> := None;
    objects := [];
    requests := [];
    var i := 0;
    while true
      invariant i <= last && |requests| == i
      invariant forall j :: 0 <= j < i ==> !Final(pages[j])
      invariant requests == Requests(bucket, prefix, pages, i)
      invariant token == TokenBefore(pages, i)
      invariant objects == Objects(bucket, pages, i)
      decreases last - i
    {
      var resp := pages[i];
      requests := requests + [ListRequest(bucket, prefix, token)];
      assert |requests| == i + 1 && requests == Requests(bucket, prefix, pages, i + 1);
      if resp.ListFailed? {
        assert Objects(bucket, pages, i + 1) == objects + [] == objects;
        ListRunEnds(bucket, prefix, pages, requests);
        return objects, requests, Some(resp.msg);
      }
      objects := AppendPage(objects, bucket, resp);
      assert objects == Objects(bucket, pages, i + 1);
      if resp.isTruncated == None || !resp.isTruncated.value {
        ListRunEnds(bucket, prefix, pages, requests);
        return objects, requests, None;
      }
      token := resp.nextToken;
      i := i + 1;
    }
  }

  /** The inner loop over a page's contents. */
  method AppendPage(objects: seq<S3ObjectInfo>, bucket: string, resp: ListResponse) returns (r: seq<S3ObjectInfo>)
    requires resp.Listed?
    ensures r == objects + PageObjects(bucket, resp)
  {
    var keys := resp.keys;
    r := objects;
    for k := 0 to |keys|
      invariant r == objects + InBucket(bucket, keys[..k])
    {
      assert InBucket(bucket, keys[..k + 1]) == InBucket(bucket, keys[..k]) + [S3ObjectInfo(bucket, keys[k])];
      r := r + [S3ObjectInfo(bucket, keys[k])];
    }
    assert keys[..|keys|] == keys;
  }
}
