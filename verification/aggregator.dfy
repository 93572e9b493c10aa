/**
 * The window aggregator (internal/aggregator/aggregator.go): one pass over the
 * posts in arrival order, keeping the count, the first timestamp (reported as
 * the minimum), the last timestamp (reported as the maximum) and the sum of the
 * selected dimension, then the mean of that sum.
 *
 * `Fold` follows the loop step by step; `Sum` and the first/last posts are the
 * independent reference it is proved against. Integers are unbounded and the
 * mean is an exact `real`.
 */
module Aggregator {
  import opened Dimensions
  import opened SseClient

  /** The published result; `avgValue` is 0 when there were no posts. */
  datatype AnalysisResult = AnalysisResult(
    totalPosts: nat,
    minTimestamp: int,
    maxTimestamp: int,
    avgValue: real)

  /** The zero-valued result reported for an empty window. */
  const EmptyResult: AnalysisResult := AnalysisResult(0, 0, 0, 0.0)

  /** The loop's state: the partly filled result and the running total of the dimension. */
  datatype Tally = Tally(count: nat, minTimestamp: int, maxTimestamp: int, total: int)

  /** The zero-valued state before the first post. */
  const Start: Tally := Tally(0, 0, 0, 0)

  /** One iteration of the loop: the first post sets the minimum, every post sets the maximum. */
  function Observe(t: Tally, post: Post, d: Dimension): Tally {
    Tally(
      t.count + 1,
      if t.count == 0 then post.data.timestamp else t.minTimestamp,
      post.data.timestamp,
      t.total + GetValue(post.data, d))
  }

  /** The loop run over `posts` in arrival order (posts observed last-to-first in the recursion). */
  function Fold(posts: seq<Post>, d: Dimension): (t: Tally)
    ensures t.count == |posts|
  {
    if posts == [] then Start
    else Observe(Fold(posts[..|posts| - 1], d), posts[|posts| - 1], d)
  }

  /** The result computed from the final state: the mean when there were posts, else 0. */
  function Finish(t: Tally): AnalysisResult {
    AnalysisResult(
      t.count,
      t.minTimestamp,
      t.maxTimestamp,
      if t.count > 0 then t.total as real / t.count as real else 0.0)
  }

  /** Reference: the sum of the selected dimension over all posts. */
  function Sum(posts: seq<Post>, d: Dimension): int {
    if posts == [] then 0 else GetValue(posts[0].data, d) + Sum(posts[1..], d)
  }

  lemma {:induction false} SumAppend(a: seq<Post>, b: seq<Post>, d: Dimension)
    ensures Sum(a + b, d) == Sum(a, d) + Sum(b, d)
  {
    if a == [] {
      assert a + b == b;
    } else {
      assert (a + b)[1..] == a[1..] + b;
      SumAppend(a[1..], b, d);
    }
  }

  /**
   * The fold's final state, described without the fold: it has counted every
   * post, its minimum is the FIRST post's timestamp and its maximum the LAST
   * post's (arrival order, not numeric order), and its total is `Sum`.
   */
  lemma {:induction false} FoldMeaning(posts: seq<Post>, d: Dimension)
    ensures Fold(posts, d) == Tally(
      |posts|,
      if posts == [] then 0 else posts[0].data.timestamp,
      if posts == [] then 0 else posts[|posts| - 1].data.timestamp,
      Sum(posts, d))
  {
    if posts != [] {
      var init := posts[..|posts| - 1];
      FoldMeaning(init, d);
      assert posts == init + [posts[|posts| - 1]];
      SumAppend(init, [posts[|posts| - 1]], d);
      assert Sum([posts[|posts| - 1]], d) == GetValue(posts[|posts| - 1].data, d) + Sum([], d);
    }
  }

  /**
   * `AggregateData` over an already received sequence of posts: every post is
   * counted, the timestamps are those of the first and last posts, and the mean
   * is the dimension's sum over the count; no posts gives the all-zero result.
   */
  function AggregateData(posts: seq<Post>, d: Dimension): (r: AnalysisResult)
    ensures r.totalPosts == |posts|
    ensures posts == [] ==> r == EmptyResult
    ensures posts != [] ==> r.minTimestamp == posts[0].data.timestamp
    ensures posts != [] ==> r.maxTimestamp == posts[|posts| - 1].data.timestamp
    ensures posts != [] ==> r.avgValue == Sum(posts, d) as real / |posts| as real
  {
    FoldMeaning(posts, d);
    Finish(Fold(posts, d))
  }

  /**
   * The loop as written, over mutable locals: it computes the same result as
   * the reference description.
   */
  method AggregateLoop(posts: seq<Post>, d: Dimension) returns (r: AnalysisResult)
    ensures r == AggregateData(posts, d)
    ensures r.totalPosts == |posts|
    ensures posts != [] ==> r.minTimestamp == posts[0].data.timestamp
    ensures posts != [] ==> r.maxTimestamp == posts[|posts| - 1].data.timestamp
    ensures posts != [] ==> r.avgValue == Sum(posts, d) as real / |posts| as real
  {
    var totalPosts: nat := 0;
    var minTimestamp := 0;
    var maxTimestamp := 0;
    var totalValue := 0;
    var i := 0;
    while i < |posts|
      invariant 0 <= i <= |posts|
      invariant totalPosts == i
      invariant totalValue == Sum(posts[..i], d)
      invariant i == 0 ==> minTimestamp == 0 && maxTimestamp == 0
      invariant i > 0 ==> minTimestamp == posts[0].data.timestamp
      invariant i > 0 ==> maxTimestamp == posts[i - 1].data.timestamp
    {
      var post := posts[i];
      if totalPosts == 0 {
        minTimestamp := post.data.timestamp;
      }
      maxTimestamp := post.data.timestamp;
      SumAppend(posts[..i], [post], d);
      assert posts[..i + 1] == posts[..i] + [post];
      totalValue := totalValue + GetValue(post.data, d);
      totalPosts := totalPosts + 1;
      i := i + 1;
    }
    assert posts[..|posts|] == posts;
    var avgValue := if totalPosts > 0 then totalValue as real / totalPosts as real else 0.0;
    r := AnalysisResult(totalPosts, minTimestamp, maxTimestamp, avgValue);
  }

  /**
   * `AggregateData` with the stream: read the posts of the connection, fold
   * them. A failed request or connection gives the all-zero result, never an
   * error; otherwise the result is the aggregate of a possible scan of the body.
   */
  method Analyze(decode: Decoder, conn: Connection, d: Dimension)
    returns (r: AnalysisResult, posts: seq<Post>, ghost chunks: seq<seq<Post>>)
    ensures !conn.Opened? ==> posts == [] && r == EmptyResult
    ensures conn.Opened? ==> ScanOutput(decode, conn.body, chunks, posts)
    ensures r == AggregateData(posts, d)
    ensures conn.Opened? ==> r.totalPosts == DecodedCount(decode, conn.body)
  {
    posts, chunks := ReadStream(decode, conn);
    if conn.Opened? {
      ScanOutputCount(decode, conn.body, chunks, posts);
    }
    r := AggregateLoop(posts, d);
  }

  lemma {:induction false} SumIgnoresTypes(a: seq<Post>, b: seq<Post>, d: Dimension)
    requires |a| == |b|
    requires forall i :: 0 <= i < |a| ==> a[i].data == b[i].data
    ensures Sum(a, d) == Sum(b, d)
  {
    if a != [] {
      SumIgnoresTypes(a[1..], b[1..], d);
    }
  }

  /** The event-type labels play no part: sequences differing only in labels aggregate identically. */
  lemma TypeLabelsIgnored(a: seq<Post>, b: seq<Post>, d: Dimension)
    requires |a| == |b|
    requires forall i :: 0 <= i < |a| ==> a[i].data == b[i].data
    ensures AggregateData(a, d) == AggregateData(b, d)
  {
    SumIgnoresTypes(a, b, d);
  }

  lemma {:induction false} SumOfZeros(posts: seq<Post>, d: Dimension)
    requires forall i :: 0 <= i < |posts| ==> GetValue(posts[i].data, d) == 0
    ensures Sum(posts, d) == 0
  {
    if posts != [] {
      SumOfZeros(posts[1..], d);
    }
  }

  /**
   * When the selected dimension is 0 in every post, the posts are still counted
   * and the timestamps still set, but the mean is 0.
   */
  lemma ZeroDimensionAverage(posts: seq<Post>, d: Dimension)
    requires forall i :: 0 <= i < |posts| ==> GetValue(posts[i].data, d) == 0
    ensures AggregateData(posts, d).avgValue == 0.0
    ensures AggregateData(posts, d).totalPosts == |posts|
    ensures posts != [] ==> AggregateData(posts, d).minTimestamp == posts[0].data.timestamp
    ensures posts != [] ==> AggregateData(posts, d).maxTimestamp == posts[|posts| - 1].data.timestamp
  {
    SumOfZeros(posts, d);
  }

  /** A dimension outside the closed set contributes 0 everywhere, so its mean is 0. */
  lemma InvalidDimensionAverage(posts: seq<Post>, d: Dimension)
    requires !IsValidDimension(d)
    ensures AggregateData(posts, d).avgValue == 0.0
  {
    ZeroDimensionAverage(posts, d);
  }

  /**
   * Later posts never change the minimum: appending posts keeps the first
   * timestamp, moves the maximum to the last appended post, and adds to the count.
   */
  lemma Appending(a: seq<Post>, b: seq<Post>, d: Dimension)
    requires a != []
    ensures AggregateData(a + b, d).minTimestamp == AggregateData(a, d).minTimestamp
    ensures AggregateData(a + b, d).maxTimestamp ==
      if b == [] then AggregateData(a, d).maxTimestamp else AggregateData(b, d).maxTimestamp
    ensures AggregateData(a + b, d).totalPosts == AggregateData(a, d).totalPosts + AggregateData(b, d).totalPosts
  {
  }

  /** Taking the post at `j` out of `b` takes its value out of the sum. */
  lemma SumRemove(b: seq<Post>, j: nat, d: Dimension)
    requires j < |b|
    ensures Sum(b, d) == GetValue(b[j].data, d) + Sum(b[..j] + b[j + 1..], d)
  {
    assert b == b[..j] + ([b[j]] + b[j + 1..]);
    SumAppend(b[..j], [b[j]] + b[j + 1..], d);
    assert ([b[j]] + b[j + 1..])[1..] == b[j + 1..];
    SumAppend(b[..j], b[j + 1..], d);
  }

  lemma MultisetRemove(a: seq<Post>, b: seq<Post>, j: nat)
    requires a != [] && j < |b| && b[j] == a[0]
    requires multiset(a) == multiset(b)
    ensures multiset(a[1..]) == multiset(b[..j] + b[j + 1..])
  {
    var rest := b[..j] + b[j + 1..];
    assert b == b[..j] + [b[j]] + b[j + 1..];
    assert multiset(b) == multiset(rest) + multiset{b[j]};
    assert a == [a[0]] + a[1..];
    assert multiset(a) == multiset(a[1..]) + multiset{a[0]};
    forall x
      ensures multiset(rest)[x] == multiset(a[1..])[x]
    {
      assert (multiset(rest) + multiset{a[0]})[x] == (multiset(a[1..]) + multiset{a[0]})[x];
    }
    assert multiset(rest) == multiset(a[1..]);
  }

  lemma {:induction false} SumPermutation(a: seq<Post>, b: seq<Post>, d: Dimension)
    requires multiset(a) == multiset(b)
    ensures Sum(a, d) == Sum(b, d)
  {
    if a == [] {
      assert |b| == |multiset(b)| == 0;
    } else {
      assert a[0] in multiset(b);
      var j :| 0 <= j < |b| && b[j] == a[0];
      MultisetRemove(a, b, j);
      SumPermutation(a[1..], b[..j] + b[j + 1..], d);
      SumRemove(b, j, d);
    }
  }

  /**
   * Arrival order does not affect the count or the mean: a reordering of the
   * same posts gives the same `totalPosts` and `avgValue` (only the first/last
   * timestamps depend on order).
   */
  lemma ReorderingKeepsCountAndMean(a: seq<Post>, b: seq<Post>, d: Dimension)
    requires multiset(a) == multiset(b)
    ensures AggregateData(a, d).totalPosts == AggregateData(b, d).totalPosts
    ensures AggregateData(a, d).avgValue == AggregateData(b, d).avgValue
  {
    assert |a| == |multiset(a)| == |multiset(b)| == |b|;
    SumPermutation(a, b, d);
  }

  /**
   * The aggregator tests: one post with likes 10 gives mean 10 for likes and
   * 0 for comments; two posts with comments 5 then 10 give mean 7.5, the first
   * post's timestamp as minimum and the second's as maximum.
   */
  lemma AggregateExamples(t1: int, t2: int)
    ensures AggregateData([], Likes) == AnalysisResult(0, 0, 0, 0.0)
    ensures AggregateData([Post("instagram_media", SocialPost(t1, 10, 0, 0, 0))], Likes)
      == AnalysisResult(1, t1, t1, 10.0)
    ensures AggregateData([Post("instagram_media", SocialPost(t1, 10, 0, 0, 0))], Comments)
      == AnalysisResult(1, t1, t1, 0.0)
    ensures AggregateData([Post("instagram_media", SocialPost(t1, 10, 5, 0, 0)),
                           Post("instagram_media", SocialPost(t2, 20, 10, 0, 0))], Comments)
      == AnalysisResult(2, t1, t2, 7.5)
  {
    var two := [Post("instagram_media", SocialPost(t1, 10, 5, 0, 0)),
                Post("instagram_media", SocialPost(t2, 20, 10, 0, 0))];
    assert Sum(two, Comments) == 5 + Sum(two[1..], Comments);
    assert Sum(two[1..], Comments) == 10 + Sum([], Comments);
    var one := [Post("instagram_media", SocialPost(t1, 10, 0, 0, 0))];
    assert Sum(one, Likes) == 10 + Sum([], Likes);
    assert Sum(one, Comments) == 0 + Sum([], Comments);
  }
}
