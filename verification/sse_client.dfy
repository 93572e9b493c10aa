/**
 * The stream reader (internal/sseclient/sse_client.go): the post records, the
 * per-dimension value extraction, and the line protocol that turns the lines
 * of a Server-Sent Events body into posts.
 *
 * Only the data-line rule of the Server-Sent Events format (WHATWG HTML Living
 * Standard, section 9.2.6 "Interpreting an event stream") is used, reduced to an
 * exact "data: " prefix: every other line is ignored, and each data line is
 * decoded on its own (the standard would join consecutive data lines into one
 * event at a blank line; the scanner loop does not). JSON decoding is a
 * parameter `decode`, and the HTTP connection is a `Connection` value holding the
 * lines that arrived before the body ended, the far end closed, or the deadline fired.
 */
module SseClient {
  import opened Wrappers
  import opened Dimensions

  /** A post payload; counters absent from the JSON object are 0. */
  datatype SocialPost = SocialPost(
    timestamp: int,
    likes: int,
    comments: int,
    favorites: int,
    retweets: int)

  /** One event: the event-type key of the data line and its payload. */
  datatype Post = Post(postType: string, data: SocialPost)

  /** The JSON decoder: `None` when the text is not an object of payloads. */
  type Decoder = string -> Option<map<string, SocialPost>>

  /** The HTTP request: it fails to build, fails to connect, or yields the body's lines. */
  datatype Connection = RequestFailed | ConnectFailed | Opened(body: seq<string>)

  /**
   * The counter a dimension selects; a tag outside the closed set selects
   * nothing and yields 0.
   */
  function GetValue(p: SocialPost, d: Dimension): (v: int)
    ensures d == Likes ==> v == p.likes
    ensures d == Comments ==> v == p.comments
    ensures d == Favorites ==> v == p.favorites
    ensures d == Retweets ==> v == p.retweets
    ensures !IsValidDimension(d) ==> v == 0
  {
    if d == Likes then p.likes
    else if d == Comments then p.comments
    else if d == Favorites then p.favorites
    else if d == Retweets then p.retweets
    else 0
  }

  /** The value depends on the selected counter only: the timestamp and the other counters play no part. */
  lemma GetValueReadsOneCounter(p: SocialPost, q: SocialPost, d: Dimension)
    requires IsValidDimension(d)
    requires d == Likes ==> p.likes == q.likes
    requires d == Comments ==> p.comments == q.comments
    requires d == Favorites ==> p.favorites == q.favorites
    requires d == Retweets ==> p.retweets == q.retweets
    ensures GetValue(p, d) == GetValue(q, d)
  {
  }

  /** The prefix that marks a data line. */
  const DataPrefix: string := "data: "

  /** `strings.HasPrefix`: `p` matches the first |p| characters of `s`. */
  function HasPrefix(s: string, p: string): (b: bool)
    ensures b <==> |p| <= |s| && forall i :: 0 <= i < |p| ==> s[i] == p[i]
  {
    |p| <= |s| && s[..|p|] == p
  }

  /** `strings.TrimPrefix`: removes one leading `p` if present, otherwise returns `s` unchanged. */
  function TrimPrefix(s: string, p: string): (r: string)
    ensures HasPrefix(s, p) ==> p + r == s
    ensures !HasPrefix(s, p) ==> r == s
  {
    if HasPrefix(s, p) then s[|p|..] else s
  }

  /** A line starting with "data: " (colon and one space) is a data line. */
  predicate IsDataLine(line: string) {
    HasPrefix(line, DataPrefix)
  }

  /** Blank lines, "data:" without the space, and other fields are never data lines. */
  lemma NonDataLines(line: string)
    requires line == [] || (|line| >= 5 && line[..5] == "data:" && (|line| == 5 || line[5] != ' '))
             || (|line| > 0 && line[0] != 'd')
    ensures !IsDataLine(line)
  {
  }

  /**
   * `posts` lists the entries of `m`, one post per key, in some order: every
   * post carries a key of `m` with that key's payload, no key appears twice,
   * every key appears, and there are exactly |m| posts.
   */
  ghost predicate Enumerates(posts: seq<Post>, m: map<string, SocialPost>) {
    && |posts| == |m|
    && (forall i :: 0 <= i < |posts| ==> posts[i].postType in m && posts[i].data == m[posts[i].postType])
    && (forall i, j :: 0 <= i < j < |posts| ==> posts[i].postType != posts[j].postType)
    && (forall k :: k in m ==> exists i :: 0 <= i < |posts| && posts[i].postType == k)
  }

  /** What one data payload (prefix already removed) may produce: nothing if it does not decode. */
  ghost predicate DataLineOutput(decode: Decoder, data: string, posts: seq<Post>) {
    match decode(data)
    case None => posts == []
    case Some(m) => Enumerates(posts, m)
  }

  /** What one body line may produce: non-data lines produce nothing. */
  ghost predicate LineOutput(decode: Decoder, line: string, posts: seq<Post>) {
    if IsDataLine(line) then DataLineOutput(decode, TrimPrefix(line, DataPrefix), posts)
    else posts == []
  }

  /** Concatenation of the per-line outputs, in line order. */
  function Flatten(chunks: seq<seq<Post>>): seq<Post> {
    if chunks == [] then [] else chunks[0] + Flatten(chunks[1..])
  }

  /**
   * `posts` is a possible output of scanning `lines`: `chunks[i]` is a possible
   * output of line i, and the posts are the chunks concatenated in line order.
   */
  ghost predicate ScanOutput(decode: Decoder, lines: seq<string>, chunks: seq<seq<Post>>, posts: seq<Post>) {
    && |chunks| == |lines|
    && (forall i :: 0 <= i < |lines| ==> LineOutput(decode, lines[i], chunks[i]))
    && posts == Flatten(chunks)
  }

  /** Number of posts a line yields: the size of its decoded map, or 0. */
  function LineCount(decode: Decoder, line: string): nat {
    if IsDataLine(line) then
      match decode(TrimPrefix(line, DataPrefix))
      case None => 0
      case Some(m) => |m|
    else 0
  }

  /** Number of posts a sequence of lines yields. */
  function DecodedCount(decode: Decoder, lines: seq<string>): nat {
    if lines == [] then 0 else LineCount(decode, lines[0]) + DecodedCount(decode, lines[1..])
  }

  /** Flattening distributes over concatenation of line groups. */
  lemma {:induction false} FlattenAppend(a: seq<seq<Post>>, b: seq<seq<Post>>)
    ensures Flatten(a + b) == Flatten(a) + Flatten(b)
  {
    if a == [] {
      assert a + b == b;
    } else {
      assert (a + b)[1..] == a[1..] + b;
      FlattenAppend(a[1..], b);
    }
  }

  /** One more line in front contributes its posts in front. */
  lemma FlattenCons(x: seq<Post>, c: seq<seq<Post>>)
    ensures Flatten([x] + c) == x + Flatten(c)
  {
  }

  /**
   * `processDataLine`: decode the payload; on failure emit nothing, otherwise
   * emit one post per key of the decoded map, in an order the map chooses.
   */
  method ProcessDataLine(decode: Decoder, data: string) returns (posts: seq<Post>)
    ensures DataLineOutput(decode, data, posts)
  {
    posts := [];
    var event := decode(data);
    if event.None? {
      return;
    }
    var m := event.value;
    var pending := m.Keys;
    while pending != {}
      invariant pending <= m.Keys
      invariant |posts| + |pending| == |m|
      invariant forall i :: 0 <= i < |posts| ==>
        posts[i].postType in m && posts[i].postType !in pending && posts[i].data == m[posts[i].postType]
      invariant forall i, j :: 0 <= i < j < |posts| ==> posts[i].postType != posts[j].postType
      invariant forall k :: k in m && k !in pending ==> exists i :: 0 <= i < |posts| && posts[i].postType == k
      decreases |pending|
    {
      var k :| k in pending;
      ghost var before := posts;
      posts := posts + [Post(k, m[k])];
      pending := pending - {k};
      assert forall i :: 0 <= i < |before| ==> posts[i] == before[i];
      assert posts[|before|].postType == k;
    }
  }

  /**
   * `scanResponse`: pass each data line, with its prefix removed, to
   * `ProcessDataLine` and append what it emits; ignore every other line.
   * The ghost `chunks` records which posts came from which line.
   */
  method ScanResponse(decode: Decoder, lines: seq<string>) returns (posts: seq<Post>, ghost chunks: seq<seq<Post>>)
    ensures ScanOutput(decode, lines, chunks, posts)
    ensures |posts| == DecodedCount(decode, lines)
  {
    posts := [];
    chunks := [];
    var i := 0;
    while i < |lines|
      invariant 0 <= i <= |lines|
      invariant ScanOutput(decode, lines[..i], chunks, posts)
    {
      var out: seq<Post> := [];
      if HasPrefix(lines[i], DataPrefix) {
        var data := TrimPrefix(lines[i], DataPrefix);
        out := ProcessDataLine(decode, data);
      }
      FlattenAppend(chunks, [out]);
      assert Flatten([out]) == out + Flatten([]);
      posts := posts + out;
      chunks := chunks + [out];
      i := i + 1;
    }
    assert lines[..|lines|] == lines;
    ScanOutputCount(decode, lines, chunks, posts);
  }

  /**
   * `ReadStream`: a request that cannot be built or a connection that cannot
   * be made yields no posts rather than an error; an opened body is scanned.
   */
  method ReadStream(decode: Decoder, conn: Connection) returns (posts: seq<Post>, ghost chunks: seq<seq<Post>>)
    ensures !conn.Opened? ==> posts == []
    ensures conn.Opened? ==> ScanOutput(decode, conn.body, chunks, posts)
  {
    if !conn.Opened? {
      return [], [];
    }
    posts, chunks := ScanResponse(decode, conn.body);
  }

  /** A line yields exactly `LineCount` posts, whatever order its keys come out in. */
  lemma LineOutputCount(decode: Decoder, line: string, posts: seq<Post>)
    requires LineOutput(decode, line, posts)
    ensures |posts| == LineCount(decode, line)
  {
  }

  /** The number of posts a scan yields is determined by the lines alone. */
  lemma {:induction false} ScanOutputCount(decode: Decoder, lines: seq<string>, chunks: seq<seq<Post>>, posts: seq<Post>)
    requires ScanOutput(decode, lines, chunks, posts)
    ensures |posts| == DecodedCount(decode, lines)
  {
    if lines != [] {
      LineOutputCount(decode, lines[0], chunks[0]);
      assert ScanOutput(decode, lines[1..], chunks[1..], Flatten(chunks[1..])) by {
        forall i | 0 <= i < |lines| - 1
          ensures LineOutput(decode, lines[1..][i], chunks[1..][i])
        {
          assert LineOutput(decode, lines[i + 1], chunks[i + 1]);
        }
      }
      ScanOutputCount(decode, lines[1..], chunks[1..], Flatten(chunks[1..]));
    }
  }

  /**
   * A body cut at a line boundary, after its first `k` lines, keeps exactly
   * the posts of those lines: the truncated scan's output is a prefix of the
   * full scan's output, so no post already decoded is lost and none of a
   * later line is added. A cut in the middle of a line is not a prefix of
   * lines: the scanner hands the received fragment on as a final line of its
   * own, which `Opened(body)` expresses by a body ending in that fragment.
   */
  lemma ScanPrefix(decode: Decoder, lines: seq<string>, chunks: seq<seq<Post>>, posts: seq<Post>, k: nat)
    requires ScanOutput(decode, lines, chunks, posts)
    requires k <= |lines|
    ensures ScanOutput(decode, lines[..k], chunks[..k], Flatten(chunks[..k]))
    ensures Flatten(chunks[..k]) <= posts
    ensures posts == Flatten(chunks[..k]) + Flatten(chunks[k..])
  {
    assert chunks == chunks[..k] + chunks[k..];
    FlattenAppend(chunks[..k], chunks[k..]);
  }

  /**
   * Posts of an earlier line precede posts of a later line: the output of line
   * `i` sits between the outputs of the lines before it and those after it.
   */
  lemma ChunkPlacement(decode: Decoder, lines: seq<string>, chunks: seq<seq<Post>>, posts: seq<Post>, i: nat)
    requires ScanOutput(decode, lines, chunks, posts)
    requires i < |lines|
    ensures posts == Flatten(chunks[..i]) + chunks[i] + Flatten(chunks[i + 1..])
  {
    FlattenAt(chunks, i);
  }

  lemma {:induction false} FlattenAt(chunks: seq<seq<Post>>, i: nat)
    requires i < |chunks|
    ensures Flatten(chunks) == Flatten(chunks[..i]) + chunks[i] + Flatten(chunks[i + 1..])
  {
    var before, after := chunks[..i], chunks[i + 1..];
    var rest := [chunks[i]] + after;
    assert chunks == before + rest;
    FlattenAppend(before, rest);
    FlattenCons(chunks[i], after);
  }

  /**
   * The scan of the test body "data: <payload>" followed by a blank line, when
   * the payload decodes to the single entry "post", yields exactly that post;
   * the body "invalid data" followed by a blank line yields nothing.
   */
  lemma ScanExamples(decode: Decoder, payload: string, p: SocialPost,
                     chunks: seq<seq<Post>>, posts: seq<Post>,
                     chunks': seq<seq<Post>>, posts': seq<Post>)
    requires decode(payload) == Some(map["post" := p])
    requires ScanOutput(decode, [DataPrefix + payload, ""], chunks, posts)
    requires ScanOutput(decode, ["invalid data", ""], chunks', posts')
    ensures posts == [Post("post", p)]
    ensures posts' == []
  {
    assert TrimPrefix(DataPrefix + payload, DataPrefix) == payload;
    assert LineOutput(decode, DataPrefix + payload, chunks[0]);
    assert chunks[0][0].postType in map["post" := p];
    assert chunks[1] == [];
    assert Flatten(chunks) == chunks[0] + Flatten(chunks[1..]);
    assert !IsDataLine("invalid data") by { assert "invalid data"[0] != 'd'; }
    assert LineOutput(decode, "invalid data", chunks'[0]);
    assert Flatten(chunks') == chunks'[0] + Flatten(chunks'[1..]);
  }
}
