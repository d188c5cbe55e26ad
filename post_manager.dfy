/** The feed synchroniser and publisher of the feed app (`PostManager`): a
    snapshot listener on the "posts" collection, ordered by timestamp
    descending, that republishes the decoded posts, and `uploadPost`, which
    puts the photo in the blob store and then writes one document. */
module PostManager {
  import opened Wrappers
  import opened Geo
  import opened Backend
  import opened FeedPost

  /** The values `UUID()` and `Date()` give while one document is decoded:
      used only when the document's key is not a UUID, and when it has no
      timestamp. */
  datatype FreshValues = FreshValues(id: Uuid, now: Instant)

  const DefaultImageUrl := ""
  const DefaultUsername := "Anonymous"
  const DefaultFishType := "Unknown"
  const DefaultDescription := ""
  const DefaultLocationName := ""

  /** `data[key] as? String` succeeds. */
  predicate HoldsString(data: DocumentData, key: string) {
    key in data && data[key].StringValue?
  }

  /** `data[key] as? String ?? default`. */
  function StringOr(data: DocumentData, key: string, default: string): string {
    if HoldsString(data, key) then data[key].s else default
  }

  /** `(data[key] as? Timestamp)?.dateValue() ?? default`. */
  function TimestampOr(data: DocumentData, key: string, default: Instant): Instant {
    if key in data && data[key].TimestampValue? then data[key].t else default
  }

  /** `data["location"] as? GeoPoint` succeeds. */
  predicate HasGeoPoint(doc: Document) {
    "location" in doc.data && doc.data["location"].GeoPointValue?
  }

  /** The per-document closure of the listener's `compactMap`: no post when
      the location is not a GeoPoint, otherwise a post whose other fields fall
      back to their defaults when missing or not of the expected type. */
  function DecodeDocument(doc: Document, drawn: FreshValues): (r: Option<Post>)
    ensures r.Some? <==> HasGeoPoint(doc)
    ensures r.Some? ==> r.value.location == doc.data["location"].point
  {
    var data := doc.data;
    if HasGeoPoint(doc) then
      Some(Post(
        id := ParseUuid(doc.documentID).GetOr(drawn.id),
        location := data["location"].point,
        imageUrl := StringOr(data, "imageUrl", DefaultImageUrl),
        username := StringOr(data, "username", DefaultUsername),
        timestamp := TimestampOr(data, "timestamp", drawn.now),
        fishType := StringOr(data, "fishType", DefaultFishType),
        description := StringOr(data, "description", DefaultDescription),
        locationName := StringOr(data, "locationName", DefaultLocationName)))
    else
      None
  }

  /** The posts one document contributes: none or one. */
  function Decoded(doc: Document, drawn: string -> FreshValues): seq<Post> {
    match DecodeDocument(doc, drawn(doc.documentID))
    case Some(p) => [p]
    case None => []
  }

  /** `documents.compactMap { ... }`: the decoded posts of a whole batch, the
      fresh values for each document drawn by its key. */
  function DecodeSnapshot(docs: seq<Document>, drawn: string -> FreshValues): (r: seq<Post>)
    ensures |r| <= |docs|
  {
    if docs == [] then []
    else Decoded(docs[0], drawn) + DecodeSnapshot(docs[1..], drawn)
  }

  /** Decoding a batch is decoding its parts and concatenating the results:
      no document influences what another one decodes to. */
  lemma {:induction false} DecodeSnapshotAppend(a: seq<Document>, b: seq<Document>, drawn: string -> FreshValues)
    ensures DecodeSnapshot(a + b, drawn) == DecodeSnapshot(a, drawn) + DecodeSnapshot(b, drawn)
  {
    if a == [] {
      assert a + b == b;
    } else {
      assert (a + b)[1..] == a[1..] + b;
      DecodeSnapshotAppend(a[1..], b, drawn);
    }
  }

  /** A document whose location is not a GeoPoint is dropped, and the rest of
      the batch decodes as if it were not there. */
  lemma MalformedDocumentDropped(a: seq<Document>, d: Document, b: seq<Document>, drawn: string -> FreshValues)
    requires !HasGeoPoint(d)
    ensures DecodeSnapshot(a + [d] + b, drawn) == DecodeSnapshot(a + b, drawn)
  {
    assert DecodeSnapshot([d], drawn) == [] by {
      assert [d][1..] == [];
    }
    calc {
      DecodeSnapshot(a + [d] + b, drawn);
      { DecodeSnapshotAppend(a + [d], b, drawn); }
      DecodeSnapshot(a + [d], drawn) + DecodeSnapshot(b, drawn);
      { DecodeSnapshotAppend(a, [d], drawn); }
      DecodeSnapshot(a, drawn) + DecodeSnapshot(b, drawn);
      { DecodeSnapshotAppend(a, b, drawn); }
      DecodeSnapshot(a + b, drawn);
    }
  }

  /** A document with a GeoPoint location yields exactly one post, in its
      own place between the posts of the documents before and after it. */
  lemma WellFormedDocumentKept(a: seq<Document>, d: Document, b: seq<Document>, drawn: string -> FreshValues)
    requires HasGeoPoint(d)
    ensures DecodeSnapshot(a + [d] + b, drawn)
            == DecodeSnapshot(a, drawn) + [DecodeDocument(d, drawn(d.documentID)).value] + DecodeSnapshot(b, drawn)
  {
    DecodeSnapshotAppend(a + [d], b, drawn);
    DecodeSnapshotAppend(a, [d], drawn);
    assert DecodeSnapshot([d], drawn) == [DecodeDocument(d, drawn(d.documentID)).value] by {
      assert [d][1..] == [];
    }
  }

  /** Two kept documents appear in the decoded feed in the order they have in
      the batch. */
  lemma KeptDocumentsKeepOrder(a: seq<Document>, x: Document, b: seq<Document>, y: Document, c: seq<Document>,
                               drawn: string -> FreshValues)
    requires HasGeoPoint(x) && HasGeoPoint(y)
    ensures var px := DecodeDocument(x, drawn(x.documentID)).value;
            var py := DecodeDocument(y, drawn(y.documentID)).value;
            DecodeSnapshot(a + [x] + b + [y] + c, drawn)
              == DecodeSnapshot(a, drawn) + [px] + DecodeSnapshot(b, drawn) + [py] + DecodeSnapshot(c, drawn)
  {
    var px := DecodeDocument(x, drawn(x.documentID)).value;
    var py := DecodeDocument(y, drawn(y.documentID)).value;
    calc {
      DecodeSnapshot(a + [x] + b + [y] + c, drawn);
      { assert a + [x] + b + [y] + c == a + [x] + (b + [y] + c); }
      DecodeSnapshot(a + [x] + (b + [y] + c), drawn);
      { WellFormedDocumentKept(a, x, b + [y] + c, drawn); }
      DecodeSnapshot(a, drawn) + [px] + DecodeSnapshot(b + [y] + c, drawn);
      { WellFormedDocumentKept(b, y, c, drawn); }
      DecodeSnapshot(a, drawn) + [px] + (DecodeSnapshot(b, drawn) + [py] + DecodeSnapshot(c, drawn));
    }
  }

  /** The timestamp field of a document, when it holds a store timestamp. */
  function StoredTimestamp(doc: Document): Option<Instant> {
    if "timestamp" in doc.data && doc.data["timestamp"].TimestampValue? then Some(doc.data["timestamp"].t) else None
  }

  /** The batch order the query asks for: every document has a timestamp,
      newest first. */
  ghost predicate DocumentsNewestFirst(docs: seq<Document>) {
    && (forall i :: 0 <= i < |docs| ==> StoredTimestamp(docs[i]).Some?)
    && (forall i, j :: 0 <= i < j < |docs| ==> StoredTimestamp(docs[i]).value >= StoredTimestamp(docs[j]).value)
  }

  ghost predicate PostsNewestFirst(posts: seq<Post>) {
    forall i, j :: 0 <= i < j < |posts| ==> posts[i].timestamp >= posts[j].timestamp
  }

  lemma {:induction false} DecodedTimestampsBounded(docs: seq<Document>, drawn: string -> FreshValues, bound: Instant)
    requires forall i :: 0 <= i < |docs| ==> StoredTimestamp(docs[i]).Some? && StoredTimestamp(docs[i]).value <= bound
    ensures forall p :: p in DecodeSnapshot(docs, drawn) ==> p.timestamp <= bound
  {
    if docs != [] {
      DecodedTimestampsBounded(docs[1..], drawn, bound);
      assert StoredTimestamp(docs[0]).Some?;
    }
  }

  /** When the batch arrives newest first, the decoded feed is newest first:
      the listener never reorders what the query delivers. */
  lemma {:induction false} DecodedNewestFirst(docs: seq<Document>, drawn: string -> FreshValues)
    requires DocumentsNewestFirst(docs)
    ensures PostsNewestFirst(DecodeSnapshot(docs, drawn))
  {
    if docs != [] {
      var rest := docs[1..];
      assert DocumentsNewestFirst(rest) by {
        forall i, j | 0 <= i < j < |rest|
          ensures StoredTimestamp(rest[i]).value >= StoredTimestamp(rest[j]).value
        {
          assert rest[i] == docs[i + 1] && rest[j] == docs[j + 1];
        }
      }
      DecodedNewestFirst(rest, drawn);
      var head := StoredTimestamp(docs[0]).value;
      assert forall i :: 0 <= i < |rest| ==> rest[i] == docs[i + 1];
      DecodedTimestampsBounded(rest, drawn, head);
      var tail := DecodeSnapshot(rest, drawn);
      var first := Decoded(docs[0], drawn);
      assert DecodeSnapshot(docs, drawn) == first + tail;
      assert forall p :: p in first ==> p.timestamp == head;
    }
  }

  /** Each field of a kept document that is missing or not a string decodes to
      its own default, whatever the other fields hold: an empty image URL,
      "Anonymous", "Unknown", an empty description and location name; a
      missing timestamp becomes the current time, and a key that is not a
      UUID a fresh one. */
  lemma MissingFieldsDefault(doc: Document, drawn: FreshValues)
    requires HasGeoPoint(doc)
    ensures var p := DecodeDocument(doc, drawn).value;
      && (!HoldsString(doc.data, "imageUrl") ==> p.imageUrl == "")
      && (!HoldsString(doc.data, "username") ==> p.username == "Anonymous")
      && (!HoldsString(doc.data, "fishType") ==> p.fishType == "Unknown")
      && (!HoldsString(doc.data, "description") ==> p.description == "")
      && (!HoldsString(doc.data, "locationName") ==> p.locationName == "")
      && (StoredTimestamp(doc).None? ==> p.timestamp == drawn.now)
      && (ParseUuid(doc.documentID).None? ==> p.id == drawn.id)
  {
  }

  /** Each field of a kept document that holds a value of the expected type
      is decoded to that value, whatever the other fields hold. */
  lemma PresentFieldsKept(doc: Document, drawn: FreshValues)
    requires HasGeoPoint(doc)
    ensures var p := DecodeDocument(doc, drawn).value;
      && (HoldsString(doc.data, "imageUrl") ==> p.imageUrl == doc.data["imageUrl"].s)
      && (HoldsString(doc.data, "username") ==> p.username == doc.data["username"].s)
      && (HoldsString(doc.data, "fishType") ==> p.fishType == doc.data["fishType"].s)
      && (HoldsString(doc.data, "description") ==> p.description == doc.data["description"].s)
      && (HoldsString(doc.data, "locationName") ==> p.locationName == doc.data["locationName"].s)
      && (StoredTimestamp(doc).Some? ==> p.timestamp == StoredTimestamp(doc).value)
      && (ParseUuid(doc.documentID).Some? ==> p.id == ParseUuid(doc.documentID).value)
  {
  }

  /** A document with a GeoPoint and a username but no image URL: the user's
      name is kept and only the URL takes its default. */
  lemma MixedDocumentExample(location: Coordinate, drawn: FreshValues)
    ensures var doc := Document("not-a-uuid", map["location" := GeoPointValue(location),
                                                  "username" := StringValue("FishHunter")]);
            var p := DecodeDocument(doc, drawn).value;
            p.username == "FishHunter" && p.imageUrl == "" && p.fishType == "Unknown" && p.id == drawn.id
  {
    var doc := Document("not-a-uuid", map["location" := GeoPointValue(location),
                                          "username" := StringValue("FishHunter")]);
    MissingFieldsDefault(doc, drawn);
    PresentFieldsKept(doc, drawn);
    assert ParseUuid("not-a-uuid").None?;
  }

  /** The document `uploadPost` writes for a published catch. */
  function UploadDocument(imageUrl: string, description: string, location: Coordinate, locationName: string,
                          fishType: string, username: string, now: Instant): (r: DocumentData)
    ensures r.Keys == {"imageUrl", "description", "location", "locationName", "username", "fishType", "timestamp"}
  {
    map[
      "imageUrl" := StringValue(imageUrl),
      "description" := StringValue(description),
      "location" := GeoPointValue(location),
      "locationName" := StringValue(locationName),
      "username" := StringValue(username),
      "fishType" := StringValue(fishType),
      "timestamp" := TimestampValue(now)]
  }

  /** What `uploadPost` writes, the listener reads back unchanged: every field
      of the decoded post is the one that was uploaded, and only the id comes
      from the document key. */
  lemma ListenerReadsBackUpload(docId: string, imageUrl: string, description: string, location: Coordinate,
                                locationName: string, fishType: string, username: string, now: Instant,
                                drawn: FreshValues)
    ensures DecodeDocument(Document(docId, UploadDocument(imageUrl, description, location, locationName, fishType, username, now)), drawn)
            == Some(Post(ParseUuid(docId).GetOr(drawn.id), location, imageUrl, username, now, fishType, description, locationName))
  {
  }

  const PrepareImageFailed := "Failed to prepare image"

  /** `posts/<UUID>.jpg`, the blob path of an uploaded photo. */
  function UploadPath(name: Uuid): string {
    "posts/" + name.uuidString + ".jpg"
  }

  /** The two sample posts of the mocked manager. */
  function MockPosts(first: FreshValues, second: FreshValues): seq<Post> {
    [Post(first.id, Coordinate(Finite(25.7617), Finite(-80.1918)), "mock_url", "FishHunter", first.now,
          "Mahi Mahi", "Caught this beautiful fish!", "Miami Beach"),
     Post(second.id, Coordinate(Finite(25.8617), Finite(-80.1218)), "mock_url2", "SpearMaster", second.now,
          "Grouper", "Great day out on the water", "Key Largo")]
  }

  class PostManager {
    var posts: seq<Post>
    var isLoading: bool
    var error: Option<string>

    /** A mocked manager starts with the two sample posts; a live one starts
        empty and registers the snapshot listener (`OnSnapshot`). */
    constructor (isMocked: bool, first: FreshValues, second: FreshValues)
      ensures posts == (if isMocked then MockPosts(first, second) else [])
      ensures !isLoading && error == None
    {
      posts := if isMocked then MockPosts(first, second) else [];
      isLoading := false;
      error := None;
    }

    /** The snapshot listener's callback. An error is recorded and the
        previous posts are kept; a missing snapshot changes nothing; a batch
        replaces the posts wholesale with its decoding. A successful batch does
        not clear an earlier error. */
    method OnSnapshot(snapshot: Option<seq<Document>>, err: Option<string>, drawn: string -> FreshValues)
      modifies this
      ensures isLoading == old(isLoading)
      ensures err.Some? ==> error == err && posts == old(posts)
      ensures err.None? && snapshot.None? ==> error == old(error) && posts == old(posts)
      ensures err.None? && snapshot.Some? ==> error == old(error) && posts == DecodeSnapshot(snapshot.value, drawn)
    {
      if err.Some? {
        error := err;
        return;
      }
      if snapshot.None? {
        return;
      }
      posts := DecodeSnapshot(snapshot.value, drawn);
    }

    /** `uploadPost`: mark loading and clear the error, encode the photo, put
        it at a fresh blob path, resolve its URL, write one document, and mark
        loading done; on any failure record its message and rethrow it. The
        posts are left to the listener. */
    method UploadPost(image: Image, description: string, location: Coordinate, locationName: string,
                      fishType: string, username: string, resp: Responses)
      returns (calls: seq<StoreCall>, outcome: Outcome<string>)
      modifies this
      ensures Run(calls, outcome)
              == PublishRun(resp.jpeg, PrepareImageFailed, UploadPath(resp.blobName), resp.put, resp.url, resp.write,
                            url => UploadDocument(url, description, location, locationName, fishType, username, resp.now))
      ensures posts == old(posts) && !isLoading
      ensures error == (if outcome.Fail? then Some(outcome.error) else None)
    {
      isLoading := true;
      error := None;
      calls := [];
      var failure: Option<string> := None;
      var path := UploadPath(resp.blobName);
      match resp.jpeg {
        case None =>
          failure := Some(PrepareImageFailed);
        case Some(data) =>
          calls := calls + [PutData(path, data)];
          match resp.put {
            case Fail(e) =>
              failure := Some(e);
            case Pass =>
              calls := calls + [DownloadUrl(path)];
              match resp.url {
                case Err(e) =>
                  failure := Some(e);
                case Ok(url) =>
                  var post := UploadDocument(url, description, location, locationName, fishType, username, resp.now);
                  calls := calls + [AddDocument(PostsCollection, post)];
                  if resp.write.Err? {
                    failure := Some(resp.write.error);
                  }
              }
          }
      }
      if failure.Some? {
        error := failure;
        isLoading := false;
        outcome := Fail(failure.value);
      } else {
        isLoading := false;
        outcome := Pass;
      }
    }
  }
}
