/**
 * The closed set of interaction dimensions (internal/types/dimensions.go).
 * A dimension is a plain string tag; only the four constants below are valid,
 * and validity is exact, case-sensitive string equality.
 */
module Dimensions {

  type Dimension = string

  const Likes: Dimension := "likes"
  const Comments: Dimension := "comments"
  const Favorites: Dimension := "favorites"
  const Retweets: Dimension := "retweets"

  /** The four valid tags, as a set. */
  const ValidDimensions: set<Dimension> := {Likes, Comments, Favorites, Retweets}

  /** A string made only of the lower-case ASCII letters. */
  predicate IsLowerAscii(s: string) {
    forall i :: 0 <= i < |s| ==> 'a' <= s[i] <= 'z'
  }

  /**
   * The switch of `IsValidDimension`: true exactly for the four constants.
   * Every valid tag is a non-empty lower-case word, so any spelling with an
   * upper-case letter ("Likes") is rejected.
   */
  function IsValidDimension(d: Dimension): (valid: bool)
    ensures valid <==> d in ValidDimensions
    ensures valid ==> |d| > 0 && IsLowerAscii(d)
  {
    d == Likes || d == Comments || d == Favorites || d == Retweets
  }

  /** The four constants are pairwise distinct: validity is membership in a 4-element set. */
  lemma DimensionsDistinct()
    ensures Likes != Comments && Likes != Favorites && Likes != Retweets
    ensures Comments != Favorites && Comments != Retweets && Favorites != Retweets
    ensures |ValidDimensions| == 4
  {
  }

  /** A tag containing an upper-case ASCII letter is never valid ("Likes", "LIKES"). */
  lemma UpperCaseInvalid(d: Dimension, i: int)
    requires 0 <= i < |d| && 'A' <= d[i] <= 'Z'
    ensures !IsValidDimension(d)
  {
  }

  /** The tag "invalid" used by the handler tests is rejected; the four constants are accepted. */
  lemma ValidityExamples()
    ensures IsValidDimension(Likes) && IsValidDimension(Comments)
    ensures IsValidDimension(Favorites) && IsValidDimension(Retweets)
    ensures !IsValidDimension("invalid") && !IsValidDimension("Likes") && !IsValidDimension("")
  {
  }
}
