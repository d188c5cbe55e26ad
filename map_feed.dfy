/** The map screen's coordinate filter (`MapFeedView.validPosts`): only posts
    whose coordinate can be placed on the map are shown. */
module MapFeed {
  import opened Geo
  import opened FeedPost
  import opened Sequences
  import PostManager

  /** Both components finite, `abs(latitude) <= 90` and `abs(longitude) <= 180`. */
  predicate IsDisplayable(c: Coordinate) {
    && c.latitude.IsFinite()
    && c.longitude.IsFinite()
    && c.latitude.Magnitude().AtMost(90.0)
    && c.longitude.Magnitude().AtMost(180.0)
  }

  /** The filter condition in plain terms: finite, in [-90, 90] and [-180, 180],
      bounds included. */
  lemma DisplayableMeansInRange(c: Coordinate)
    ensures IsDisplayable(c) <==>
              && c.latitude.Finite? && c.longitude.Finite?
              && -90.0 <= c.latitude.value <= 90.0
              && -180.0 <= c.longitude.value <= 180.0
  {
  }

  /** `postManager.posts.filter { ... }`. */
  function ValidPosts(posts: seq<Post>): (r: seq<Post>)
    ensures |r| <= |posts|
    ensures forall p :: p in r ==> p in posts && IsDisplayable(p.location)
  {
    if posts == [] then []
    else (if IsDisplayable(posts[0].location) then [posts[0]] else []) + ValidPosts(posts[1..])
  }

  /** Exactly the posts with an undisplayable coordinate are removed. */
  lemma {:induction false} ValidPostsKeepsExactlyTheValid(posts: seq<Post>, p: Post)
    ensures p in ValidPosts(posts) <==> p in posts && IsDisplayable(p.location)
  {
    if posts != [] {
      ValidPostsKeepsExactlyTheValid(posts[1..], p);
      assert posts == [posts[0]] + posts[1..];
    }
  }

  /** The kept posts are in the order of the feed. */
  lemma {:induction false} ValidPostsIsSubsequence(posts: seq<Post>)
    ensures IsSubsequence(ValidPosts(posts), posts)
  {
    if posts != [] {
      ValidPostsIsSubsequence(posts[1..]);
      var r := ValidPosts(posts);
      if IsDisplayable(posts[0].location) {
        assert r[0] == posts[0] && r[1..] == ValidPosts(posts[1..]);
      } else {
        assert r == ValidPosts(posts[1..]);
        SkipHead(r, posts);
      }
    }
  }

  /** Filtering splits over concatenation, so the relative order of kept posts
      is that of the feed. */
  lemma {:induction false} ValidPostsAppend(a: seq<Post>, b: seq<Post>)
    ensures ValidPosts(a + b) == ValidPosts(a) + ValidPosts(b)
  {
    if a == [] {
      assert a + b == b;
    } else {
      assert (a + b)[1..] == a[1..] + b;
      ValidPostsAppend(a[1..], b);
    }
  }

  /** Filtering the filtered list changes nothing. */
  lemma {:induction false} ValidPostsIdempotent(posts: seq<Post>)
    ensures ValidPosts(ValidPosts(posts)) == ValidPosts(posts)
  {
    if posts != [] {
      ValidPostsIdempotent(posts[1..]);
      var head := if IsDisplayable(posts[0].location) then [posts[0]] else [];
      ValidPostsAppend(head, ValidPosts(posts[1..]));
      assert ValidPosts(head) == head by {
        if head != [] { assert head[1..] == []; }
      }
    }
  }

  /** The filter on a one-post feed. */
  lemma SinglePost(q: Post)
    ensures ValidPosts([q]) == if IsDisplayable(q.location) then [q] else []
  {
    assert [q][1..] == [];
  }

  /** The corners (+-90, +-180) and the origin are kept because the
      comparisons are `<=`. */
  lemma BoundaryCornersKept(p: Post)
    ensures var q := p.(location := Coordinate(Finite(90.0), Finite(180.0))); ValidPosts([q]) == [q]
    ensures var q := p.(location := Coordinate(Finite(-90.0), Finite(-180.0))); ValidPosts([q]) == [q]
    ensures var q := p.(location := Origin); ValidPosts([q]) == [q]
  {
    SinglePost(p.(location := Coordinate(Finite(90.0), Finite(180.0))));
    SinglePost(p.(location := Coordinate(Finite(-90.0), Finite(-180.0))));
    SinglePost(p.(location := Origin));
  }

  /** 91 degrees of latitude, -181 degrees of longitude, NaN and infinities
      are dropped. */
  lemma OutOfRangeDropped(p: Post)
    ensures ValidPosts([p.(location := Coordinate(Finite(91.0), Finite(0.0)))]) == []
    ensures ValidPosts([p.(location := Coordinate(Finite(0.0), Finite(-181.0)))]) == []
    ensures ValidPosts([p.(location := Coordinate(NaN, Finite(0.0)))]) == []
    ensures ValidPosts([p.(location := Coordinate(Finite(0.0), Infinity(true)))]) == []
  {
    SinglePost(p.(location := Coordinate(Finite(91.0), Finite(0.0))));
    SinglePost(p.(location := Coordinate(Finite(0.0), Finite(-181.0))));
    SinglePost(p.(location := Coordinate(NaN, Finite(0.0))));
    SinglePost(p.(location := Coordinate(Finite(0.0), Infinity(true))));
  }

  /** The mocked manager's sample posts are all shown on the map. */
  lemma MockPostsDisplayable(first: PostManager.FreshValues, second: PostManager.FreshValues)
    ensures ValidPosts(PostManager.MockPosts(first, second)) == PostManager.MockPosts(first, second)
  {
    var m := PostManager.MockPosts(first, second);
    assert m[1..][1..] == [];
  }
}
