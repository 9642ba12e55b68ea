/**
 * The product tile of the catalogue: a row of five filled or hollow stars
 * for the whole part of the rating, the review count with its noun, and
 * the first image or a placeholder.
 */
module ProductCard {
  import Rating

  /** Symbol i (0..4) is filled when i is below the rating rounded down. */
  function Symbols(rating: real): (s: seq<bool>)
    ensures |s| == 5
  {
    seq(5, i => i < rating.Floor)
  }

  /** The number of filled symbols, counted from the right end. */
  function Filled(s: seq<bool>): nat {
    if s == [] then 0 else Filled(s[..|s| - 1]) + (if s[|s| - 1] then 1 else 0)
  }

  function Clamp(x: int, lo: int, hi: int): int {
    if x < lo then lo else if x > hi then hi else x
  }

  /** A row of n symbols with the first c filled has clamp(c, 0, n) filled ones. */
  lemma {:induction false} FilledPrefix(n: nat, c: int)
    ensures Filled(seq(n, i => i < c)) == Clamp(c, 0, n)
  {
    if n > 0 {
      var s := seq(n, i => i < c);
      assert s[..n - 1] == seq(n - 1, i => i < c);
      FilledPrefix(n - 1, c);
    }
  }

  /** The filled symbols form a prefix whose length is the rating's floor clamped to 0..5. */
  lemma FilledCount(rating: real)
    ensures forall i :: 0 <= i < 5 ==> (Symbols(rating)[i] <==> i < rating.Floor)
    ensures Filled(Symbols(rating)) == Clamp(rating.Floor, 0, 5)
  {
    FilledPrefix(5, rating.Floor);
  }

  /** The tile and the star widget agree: symbol i is filled exactly when star i + 1 is full. */
  lemma AgreesWithStars(rating: real)
    ensures forall i :: 0 <= i < 5 ==> (Symbols(rating)[i] <==> Rating.Stars(rating)[i] == Rating.Full)
  {
    Rating.StarsFollowRule(rating);
    forall i | 0 <= i < 5
      ensures Symbols(rating)[i] <==> Rating.Stars(rating)[i] == Rating.Full
    {
      assert Rating.Stars(rating)[i] == Rating.StarFor(rating, i + 1);
      assert rating.Floor as real <= rating < rating.Floor as real + 1.0;
    }
  }

  /** The noun after the count is singular exactly for one review. */
  function ReviewsNoun(numReviews: int): (noun: string)
    ensures noun == "review" <==> numReviews == 1
    ensures noun == "review" || noun == "reviews"
  {
    if numReviews == 1 then "review" else "reviews"
  }

  /** `images[0] || "/placeholder.jpg"`: a missing or empty first image gives the placeholder. */
  function CardImage(images: seq<string>): (src: string)
    ensures src != ""
    ensures |images| > 0 && images[0] != "" ==> src == images[0]
    ensures src != "/placeholder.jpg" ==> |images| > 0 && src == images[0]
  {
    if |images| > 0 && images[0] != "" then images[0] else "/placeholder.jpg"
  }
}
