/** The remote collaborators the core talks to: the document store (records
    are maps from field names to values) and the blob store (bytes under a
    path, resolvable to a download URL). Their calls are made visible as a
    trace of `StoreCall`s, and their answers come from `Responses`, an oracle
    fixed before the call. */
module Backend {
  import opened Wrappers
  import opened Geo

  type Bytes = seq<bv8>

  /** An instant, as the store's `Timestamp` and Swift's `Date` carry it. */
  type Instant = int

  /** A UUID, held as its canonical `uuidString` (upper-case hex, 8-4-4-4-12). */
  datatype Uuid = Uuid(uuidString: string)

  /** A field value as the document store returns it. */
  datatype FieldValue =
    | StringValue(s: string)
    | TimestampValue(t: Instant)
    | GeoPointValue(point: Coordinate)
    | NumberValue(n: Double)
    | OtherValue

  type DocumentData = map<string, FieldValue>

  /** A picked photo. Its JPEG encoding is not computed here: it is one of
      the platform's answers in `Responses`. */
  datatype Image = Image(pixels: Bytes)

  /** A document of a query snapshot: its key and its fields. */
  datatype Document = Document(documentID: string, data: DocumentData)

  /** One call into a remote store, in the order it is made. */
  datatype StoreCall =
    | PutData(path: string, bytes: Bytes)
    | DownloadUrl(path: string)
    | AddDocument(collection: string, fields: DocumentData)

  /** The answers the platform gives to one publish attempt: the JPEG
      encoding of the image (none when encoding fails), the fresh UUIDs drawn
      for the blob name and the post id, the result of the blob put, of the
      URL resolution and of the document write (the new document's key), and
      the clock reading taken for the timestamp. */
  datatype Responses = Responses(
    jpeg: Option<Bytes>,
    blobName: Uuid,
    postId: Uuid,
    put: Outcome<string>,
    url: Result<string, string>,
    write: Result<string, string>,
    now: Instant)

  /** What a publish attempt did: the store calls in order, and whether it
      completed or threw (with the error's message). */
  datatype Run = Run(calls: seq<StoreCall>, outcome: Outcome<string>)

  /** The name of the collection both apps write posts to and read them from. */
  const PostsCollection := "posts"

  /** The shared shape of both publish paths: encode the image, put the bytes
      under `path`, resolve the download URL, then add one document built from
      that URL. Every step that fails ends the run with its error; no later
      step is attempted. */
  function PublishRun(jpeg: Option<Bytes>, encodeError: string, path: string,
                      put: Outcome<string>, url: Result<string, string>,
                      write: Result<string, string>,
                      document: string -> DocumentData): (r: Run)
  {
    match jpeg
    case None => Run([], Fail(encodeError))
    case Some(data) =>
      match put
      case Fail(e) => Run([PutData(path, data)], Fail(e))
      case Pass =>
        match url
        case Err(e) => Run([PutData(path, data), DownloadUrl(path)], Fail(e))
        case Ok(u) =>
          var calls := [PutData(path, data), DownloadUrl(path), AddDocument(PostsCollection, document(u))];
          match write
          case Err(e) => Run(calls, Fail(e))
          case Ok(_) => Run(calls, Pass)
  }

  /** A document is written only after the bytes were put and their URL was
      resolved, both under the same path, and the document is built from the
      resolved URL; there is never more than one write. */
  lemma WriteOnlyAfterUpload(jpeg: Option<Bytes>, encodeError: string, path: string,
                             put: Outcome<string>, url: Result<string, string>,
                             write: Result<string, string>,
                             document: string -> DocumentData, k: nat)
    requires var r := PublishRun(jpeg, encodeError, path, put, url, write, document);
             k < |r.calls| && r.calls[k].AddDocument?
    ensures jpeg.Some? && put.Pass? && url.Ok?
    ensures var r := PublishRun(jpeg, encodeError, path, put, url, write, document);
            && k == 2 && |r.calls| == 3
            && r.calls[0] == PutData(path, jpeg.value)
            && r.calls[1] == DownloadUrl(path)
            && r.calls[2] == AddDocument(PostsCollection, document(url.value))
  {
  }

  /** A run completes exactly when every step succeeds, and a completed run
      has made exactly the three calls put, resolve, write. */
  lemma PublishSucceedsIffAllStepsSucceed(jpeg: Option<Bytes>, encodeError: string, path: string,
                                          put: Outcome<string>, url: Result<string, string>,
                                          write: Result<string, string>,
                                          document: string -> DocumentData)
    ensures var r := PublishRun(jpeg, encodeError, path, put, url, write, document);
            r.outcome.Pass? <==> jpeg.Some? && put.Pass? && url.Ok? && write.Ok?
    ensures var r := PublishRun(jpeg, encodeError, path, put, url, write, document);
            r.outcome.Pass? ==> r.calls == [PutData(path, jpeg.value), DownloadUrl(path),
                                            AddDocument(PostsCollection, document(url.value))]
  {
  }

  /** A failed encoding throws before any store is called; a failed put leaves
      no URL resolution and no write behind; a failed resolution leaves no write. */
  lemma EarlyFailureStopsTheRun(jpeg: Option<Bytes>, encodeError: string, path: string,
                                put: Outcome<string>, url: Result<string, string>,
                                write: Result<string, string>,
                                document: string -> DocumentData)
    ensures jpeg.None? ==>
              PublishRun(jpeg, encodeError, path, put, url, write, document) == Run([], Fail(encodeError))
    ensures jpeg.Some? && put.Fail? ==>
              PublishRun(jpeg, encodeError, path, put, url, write, document) == Run([PutData(path, jpeg.value)], Fail(put.error))
    ensures jpeg.Some? && put.Pass? && url.Err? ==>
              PublishRun(jpeg, encodeError, path, put, url, write, document)
                == Run([PutData(path, jpeg.value), DownloadUrl(path)], Fail(url.error))
  {
  }

  // ----- UUIDs -----

  predicate IsHexDigit(c: char) {
    '0' <= c <= '9' || 'a' <= c <= 'f' || 'A' <= c <= 'F'
  }

  /** The textual form `UUID(uuidString:)` accepts: 36 characters, hyphens at
      offsets 8, 13, 18 and 23, hex digits of either case elsewhere. */
  predicate IsUuidText(s: string) {
    && |s| == 36
    && forall i :: 0 <= i < 36 ==>
         if i == 8 || i == 13 || i == 18 || i == 23 then s[i] == '-' else IsHexDigit(s[i])
  }

  function UpperHex(c: char): char {
    if 'a' <= c <= 'f' then (c as int - 32) as char else c
  }

  /** `UUID(uuidString:)`: the UUID a well-formed text denotes, or none. */
  function ParseUuid(s: string): (r: Option<Uuid>)
    ensures r.Some? <==> IsUuidText(s)
    ensures r.Some? ==> |r.value.uuidString| == 36
                        && forall i :: 0 <= i < 36 ==> r.value.uuidString[i] == UpperHex(s[i])
  {
    if IsUuidText(s) then Some(Uuid(seq(|s|, i requires 0 <= i < |s| => UpperHex(s[i])))) else None
  }
}
