/** The `Post` record of the catalog app (Spearfished/Spearfished): an
    immutable value with a string id, and its mapping to a store document. */
module PostRecord {
  import opened Wrappers
  import opened Geo
  import opened Backend
  import PostManager

  datatype Post = Post(
    id: string,
    location: Coordinate,
    imageUrl: string,
    username: string,
    timestamp: Instant,
    fishType: string,
    description: string,
    locationName: string)

  /** The initialiser: every argument lands in the field of the same name,
      and a missing id is the `uuidString` of a fresh UUID. */
  function NewPost(freshId: Uuid, username: string, timestamp: Instant, imageUrl: string, fishType: string,
                   description: string, location: Coordinate, locationName: string,
                   id: Option<string> := None): (p: Post)
    ensures p.id == (if id.Some? then id.value else freshId.uuidString)
    ensures && p.username == username && p.timestamp == timestamp && p.imageUrl == imageUrl
            && p.fishType == fishType && p.description == description && p.location == location
            && p.locationName == locationName
  {
    Post(id.GetOr(freshId.uuidString), location, imageUrl, username, timestamp, fishType, description, locationName)
  }

  const DictionaryKeys: set<string> :=
    {"id", "username", "timestamp", "imageUrl", "fishType", "description", "location", "locationName"}

  /** `toDictionary`: one store field per record field, under the field's
      own name. */
  function ToDictionary(p: Post): (r: DocumentData)
    ensures r.Keys == DictionaryKeys
  {
    map[
      "id" := StringValue(p.id),
      "username" := StringValue(p.username),
      "timestamp" := TimestampValue(p.timestamp),
      "imageUrl" := StringValue(p.imageUrl),
      "fishType" := StringValue(p.fishType),
      "description" := StringValue(p.description),
      "location" := GeoPointValue(p.location),
      "locationName" := StringValue(p.locationName)]
  }

  /** Each store field holds the value of the record field of the same name. */
  lemma ToDictionaryFields(p: Post)
    ensures var d := ToDictionary(p);
            && d["id"] == StringValue(p.id) && d["username"] == StringValue(p.username)
            && d["timestamp"] == TimestampValue(p.timestamp) && d["imageUrl"] == StringValue(p.imageUrl)
            && d["fishType"] == StringValue(p.fishType) && d["description"] == StringValue(p.description)
            && d["location"] == GeoPointValue(p.location) && d["locationName"] == StringValue(p.locationName)
  {
  }

  /** The document of the catalog record, read back from it. */
  function FromDictionary(d: DocumentData): Option<Post> {
    if && "id" in d && d["id"].StringValue?
       && "username" in d && d["username"].StringValue?
       && "timestamp" in d && d["timestamp"].TimestampValue?
       && "imageUrl" in d && d["imageUrl"].StringValue?
       && "fishType" in d && d["fishType"].StringValue?
       && "description" in d && d["description"].StringValue?
       && "location" in d && d["location"].GeoPointValue?
       && "locationName" in d && d["locationName"].StringValue?
    then Some(Post(d["id"].s, d["location"].point, d["imageUrl"].s, d["username"].s, d["timestamp"].t,
                   d["fishType"].s, d["description"].s, d["locationName"].s))
    else None
  }

  /** No information is lost in the document: reading it back gives the
      record, so two different records never share a document. */
  lemma ToDictionaryRoundTrip(p: Post)
    ensures FromDictionary(ToDictionary(p)) == Some(p)
  {
    ToDictionaryFields(p);
  }

  /** The feed app's listener decodes a document this app wrote to a post with
      the same location, URL, author, time, species, caption and place; the
      `id` field is ignored, the feed's id comes from the document key. */
  lemma FeedReadsCatalogPost(p: Post, docId: string, drawn: PostManager.FreshValues)
    ensures var r := PostManager.DecodeDocument(Document(docId, ToDictionary(p)), drawn);
            && r.Some?
            && r.value.id == ParseUuid(docId).GetOr(drawn.id)
            && r.value.location == p.location && r.value.imageUrl == p.imageUrl
            && r.value.username == p.username && r.value.timestamp == p.timestamp
            && r.value.fishType == p.fishType && r.value.description == p.description
            && r.value.locationName == p.locationName
  {
    ToDictionaryFields(p);
  }
}
