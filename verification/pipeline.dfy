/**
 * The two stages together: scanning the lines of a body and folding the posts.
 * The order in which a multi-key data line emits its posts is left open (it is
 * the decoded map's iteration order); these lemmas say what the result does and
 * does not depend on.
 */
module Pipeline {
  import opened Wrappers
  import opened Dimensions
  import opened SseClient
  import opened Aggregator

  /** No post occurs twice in `s`. */
  ghost predicate Distinct(s: seq<Post>) {
    forall i, j :: 0 <= i < j < |s| ==> s[i] != s[j]
  }

  lemma {:induction false} DistinctMultiplicity(s: seq<Post>, x: Post)
    requires Distinct(s)
    ensures multiset(s)[x] == if x in s then 1 else 0
  {
    if s != [] {
      assert s == [s[0]] + s[1..];
      assert Distinct(s[1..]) by {
        forall i, j | 0 <= i < j < |s| - 1
          ensures s[1..][i] != s[1..][j]
        {
          assert s[i + 1] != s[j + 1];
        }
      }
      DistinctMultiplicity(s[1..], x);
      if x == s[0] {
        assert x !in s[1..] by {
          forall i | 0 <= i < |s| - 1
            ensures s[1..][i] != x
          {
            assert s[0] != s[i + 1];
          }
        }
      }
    }
  }

  /** Two listings of the same map hold the same posts, differing at most in order. */
  lemma EnumerationsPermute(o1: seq<Post>, o2: seq<Post>, m: map<string, SocialPost>)
    requires Enumerates(o1, m) && Enumerates(o2, m)
    ensures multiset(o1) == multiset(o2)
  {
    assert Distinct(o1) && Distinct(o2);
    forall x
      ensures multiset(o1)[x] == multiset(o2)[x]
    {
      DistinctMultiplicity(o1, x);
      DistinctMultiplicity(o2, x);
      if x in o1 {
        var k := x.postType;
        var i :| 0 <= i < |o2| && o2[i].postType == k;
        assert o2[i] == x;
      }
      if x in o2 {
        var k := x.postType;
        var i :| 0 <= i < |o1| && o1[i].postType == k;
        assert o1[i] == x;
      }
    }
  }

  /** A map with at most one key has only one listing. */
  lemma SingleKeyEnumerationUnique(o1: seq<Post>, o2: seq<Post>, m: map<string, SocialPost>)
    requires Enumerates(o1, m) && Enumerates(o2, m)
    requires |m| <= 1
    ensures o1 == o2
  {
  }

  lemma {:induction false} FlattenPermute(c1: seq<seq<Post>>, c2: seq<seq<Post>>)
    requires |c1| == |c2|
    requires forall i :: 0 <= i < |c1| ==> multiset(c1[i]) == multiset(c2[i])
    ensures multiset(Flatten(c1)) == multiset(Flatten(c2))
  {
    if c1 != [] {
      FlattenPermute(c1[1..], c2[1..]);
      assert multiset(c1[0]) == multiset(c2[0]);
    }
  }

  /** Two possible scans of the same lines yield the same posts, up to order within each line. */
  lemma ScansPermute(decode: Decoder, lines: seq<string>,
                     c1: seq<seq<Post>>, o1: seq<Post>, c2: seq<seq<Post>>, o2: seq<Post>)
    requires ScanOutput(decode, lines, c1, o1)
    requires ScanOutput(decode, lines, c2, o2)
    ensures multiset(o1) == multiset(o2)
  {
    forall i | 0 <= i < |c1|
      ensures multiset(c1[i]) == multiset(c2[i])
    {
      assert LineOutput(decode, lines[i], c1[i]) && LineOutput(decode, lines[i], c2[i]);
      if IsDataLine(lines[i]) {
        var data := TrimPrefix(lines[i], DataPrefix);
        if decode(data).Some? {
          EnumerationsPermute(c1[i], c2[i], decode(data).value);
        }
      }
    }
    FlattenPermute(c1, c2);
  }

  /**
   * The count and the mean of a window do not depend on the order in which a
   * multi-key line's entries come out: any two possible scans of the same body
   * aggregate to the same `totalPosts` and `avgValue`, and the count is
   * `DecodedCount` of the body.
   */
  lemma CountAndMeanIndependentOfKeyOrder(decode: Decoder, lines: seq<string>, d: Dimension,
                                          c1: seq<seq<Post>>, o1: seq<Post>, c2: seq<seq<Post>>, o2: seq<Post>)
    requires ScanOutput(decode, lines, c1, o1)
    requires ScanOutput(decode, lines, c2, o2)
    ensures AggregateData(o1, d).totalPosts == AggregateData(o2, d).totalPosts == DecodedCount(decode, lines)
    ensures AggregateData(o1, d).avgValue == AggregateData(o2, d).avgValue
  {
    ScansPermute(decode, lines, c1, o1, c2, o2);
    ReorderingKeepsCountAndMean(o1, o2, d);
    ScanOutputCount(decode, lines, c1, o1);
  }

  /** Every data line of `lines` decodes to at most one entry (or not at all). */
  ghost predicate SingleKeyLines(decode: Decoder, lines: seq<string>) {
    forall i :: 0 <= i < |lines| ==> LineCount(decode, lines[i]) <= 1
  }

  /**
   * When every data line carries a single entry, like the payloads in
   * internal/sseclient/sse_client_test.go:85 and 139, the scan is deterministic
   * and so is the whole result, timestamps included.
   */
  lemma SingleKeyScanDeterministic(decode: Decoder, lines: seq<string>, d: Dimension,
                                   c1: seq<seq<Post>>, o1: seq<Post>, c2: seq<seq<Post>>, o2: seq<Post>)
    requires SingleKeyLines(decode, lines)
    requires ScanOutput(decode, lines, c1, o1)
    requires ScanOutput(decode, lines, c2, o2)
    ensures o1 == o2
    ensures AggregateData(o1, d) == AggregateData(o2, d)
  {
    forall i | 0 <= i < |c1|
      ensures c1[i] == c2[i]
    {
      assert LineOutput(decode, lines[i], c1[i]) && LineOutput(decode, lines[i], c2[i]);
      assert LineCount(decode, lines[i]) <= 1;
      if IsDataLine(lines[i]) {
        var data := TrimPrefix(lines[i], DataPrefix);
        if decode(data).Some? {
          SingleKeyEnumerationUnique(c1[i], c2[i], decode(data).value);
        }
      }
    }
    assert c1 == c2;
  }

  /** A line that yields nothing: not a data line, or a payload that does not decode. */
  ghost predicate Ignored(decode: Decoder, line: string) {
    !IsDataLine(line) || decode(TrimPrefix(line, DataPrefix)).None?
  }

  /**
   * A malformed or non-data line between valid ones changes nothing: every
   * possible scan of `a + [bad] + b` is also a possible scan of `a + b`, with
   * the same posts, and the two bodies yield the same number of posts.
   */
  lemma IgnoredLineChangesNothing(decode: Decoder, a: seq<string>, bad: string, b: seq<string>,
                                  chunks: seq<seq<Post>>, posts: seq<Post>)
    requires Ignored(decode, bad)
    requires ScanOutput(decode, a + [bad] + b, chunks, posts)
    ensures ScanOutput(decode, a + b, chunks[..|a|] + chunks[|a| + 1..], posts)
    ensures DecodedCount(decode, a + [bad] + b) == DecodedCount(decode, a + b)
  {
    var lines := a + [bad] + b;
    var kept := chunks[..|a|] + chunks[|a| + 1..];
    assert chunks[|a|] == [] by {
      assert lines[|a|] == bad;
      assert LineOutput(decode, bad, chunks[|a|]);
    }
    assert posts == Flatten(kept) by {
      ChunkPlacement(decode, lines, chunks, posts, |a|);
      FlattenAppend(chunks[..|a|], chunks[|a| + 1..]);
    }
    ScanOutputCount(decode, a + b, kept, posts);
    ScanOutputCount(decode, lines, chunks, posts);
  }
}
