/** The `Post` record of the feed app (Spearfished/Spearfished/Spearfished):
    an immutable value whose id is a `UUID`. */
module FeedPost {
  import opened Geo
  import opened Backend

  datatype Post = Post(
    id: Uuid,
    location: Coordinate,
    imageUrl: string,
    username: string,
    timestamp: Instant,
    fishType: string,
    description: string,
    locationName: string)
}
