/**
 * Product reviews on the server (backend/src/controllers/review.controller.js).
 * The table keeps its rows in creation order; the schema makes
 * (product, user) UNIQUE and CHECKs the rating to be within 1..5, so the
 * controller's missing range check surfaces as a 500 from the store.
 */
module ReviewController {
  import opened Wrappers
  import opened Schema

  datatype ReviewRow = ReviewRow(
    id: nat,
    productId: Option<ProductId>,
    userId: UserId,
    rating: int,
    title: string,
    comment: string)

  const MinRating := 1
  const MaxRating := 5

  predicate RatingAllowed(r: int) { MinRating <= r <= MaxRating }

  /** What the schema guarantees of every state of the table. */
  ghost predicate WellFormed(rows: seq<ReviewRow>, nextId: nat)
  {
    && (forall i :: 0 <= i < |rows| ==> rows[i].id < nextId && RatingAllowed(rows[i].rating))
    && (forall i, j :: 0 <= i < j < |rows| ==> rows[i].id < rows[j].id)
    && (forall i, j :: 0 <= i < j < |rows| && rows[i].productId.Some? && rows[i].productId == rows[j].productId
          ==> rows[i].userId != rows[j].userId)
  }

  predicate Owns(rows: seq<ReviewRow>, id: nat, userId: UserId)
  {
    exists i :: 0 <= i < |rows| && rows[i].id == id && rows[i].userId == userId
  }

  predicate HasReviewed(rows: seq<ReviewRow>, productId: Option<ProductId>, userId: UserId)
  {
    productId.Some? && exists i :: 0 <= i < |rows| && rows[i].productId == productId && rows[i].userId == userId
  }

  /** The COALESCE update: each supplied field replaces the stored one, an absent field keeps it. */
  function Patched(r: ReviewRow, rating: Option<int>, title: Option<string>, comment: Option<string>): ReviewRow
  {
    r.(rating := if rating.Some? then rating.value else r.rating,
       title := if title.Some? then title.value else r.title,
       comment := if comment.Some? then comment.value else r.comment)
  }

  /** The rows other than the one with that id. */
  function WithoutReview(rows: seq<ReviewRow>, id: nat): seq<ReviewRow>
  {
    if rows == [] then []
    else WithoutReview(rows[..|rows| - 1], id) + (if rows[|rows| - 1].id == id then [] else [rows[|rows| - 1]])
  }

  /** Deleting by id keeps every other row and drops every row with that id. */
  lemma {:induction false} WithoutReviewMembers(rows: seq<ReviewRow>, id: nat)
    ensures forall x :: x in WithoutReview(rows, id) <==> x in rows && x.id != id
  {
    if rows != [] {
      var init := rows[..|rows| - 1];
      WithoutReviewMembers(init, id);
      assert rows == init + [rows[|rows| - 1]];
    }
  }

  lemma {:induction false} WithoutReviewAt(rows: seq<ReviewRow>, i: nat)
    requires i < |rows| && forall a, b :: 0 <= a < b < |rows| ==> rows[a].id < rows[b].id
    ensures WithoutReview(rows, rows[i].id) == rows[..i] + rows[i + 1..]
  {
    var n := |rows|;
    var init, last := rows[..n - 1], rows[n - 1];
    var id := rows[i].id;
    assert WithoutReview(rows, id) == WithoutReview(init, id) + (if last.id == id then [] else [last]);
    if i == n - 1 {
      assert WithoutReview(init, id) == init by {
        assert forall k :: 0 <= k < |init| ==> init[k] == rows[k];
        NoSuchReview(init, id);
      }
      assert rows[..i] + rows[i + 1..] == init;
    } else {
      assert WithoutReview(init, id) == init[..i] + init[i + 1..] by {
        assert forall k :: 0 <= k < |init| ==> init[k] == rows[k];
        WithoutReviewAt(init, i);
      }
      assert last.id != id;
      assert init[..i] == rows[..i] && init[i + 1..] + [last] == rows[i + 1..];
    }
  }

  lemma {:induction false} NoSuchReview(rows: seq<ReviewRow>, id: nat)
    requires forall k :: 0 <= k < |rows| ==> rows[k].id < id
    ensures WithoutReview(rows, id) == rows
  {
    if rows != [] {
      var init, last := rows[..|rows| - 1], rows[|rows| - 1];
      assert forall k :: 0 <= k < |init| ==> init[k] == rows[k];
      NoSuchReview(init, id);
      assert last.id != id && rows == init + [last];
    }
  }

  lemma RemovalKeepsWellFormed(rows: seq<ReviewRow>, nextId: nat, i: nat)
    requires WellFormed(rows, nextId) && i < |rows|
    ensures WellFormed(rows[..i] + rows[i + 1..], nextId)
  {
    var r := rows[..i] + rows[i + 1..];
    assert forall a :: 0 <= a < |r| ==> r[a] == rows[if a < i then a else a + 1];
  }

  lemma PatchKeepsWellFormed(rows: seq<ReviewRow>, nextId: nat, i: nat, rating: Option<int>, title: Option<string>, comment: Option<string>)
    requires WellFormed(rows, nextId) && i < |rows| && (rating.None? || RatingAllowed(rating.value))
    ensures WellFormed(rows[i := Patched(rows[i], rating, title, comment)], nextId)
  {
  }

  class ReviewTable {
    var rows: seq<ReviewRow>
    var nextId: nat

    ghost predicate Valid()
      reads this
    {
      WellFormed(rows, nextId)
    }

    constructor ()
      ensures Valid() && rows == []
    {
      rows := [];
      nextId := 0;
    }

    /**
     * `createReview`: 400 when rating, title or comment is falsy (a rating of 0 included) or when the user has
     * already reviewed the product; 500 when the store refuses the row for a rating outside 1..5 or an unknown
     * product; otherwise 201 and the row is appended. The title's VARCHAR(255) width is not modelled.
     */
    method CreateReview(products: set<ProductId>, userId: UserId, productId: Option<ProductId>,
                        rating: Option<int>, title: string, comment: string) returns (status: int)
      requires Valid()
      modifies this
      ensures Valid()
      ensures rating.None? || rating == Some(0) || title == "" || comment == "" ==> status == 400 && rows == old(rows)
      ensures status == 400 <==> rating.None? || rating == Some(0) || title == "" || comment == ""
                                 || HasReviewed(old(rows), productId, userId)
      ensures status == 500 <==> status != 400 && (!RatingAllowed(rating.value) || (productId.Some? && productId.value !in products))
      ensures status != 201 ==> rows == old(rows)
      ensures status == 201 ==> rows == old(rows) + [ReviewRow(old(nextId), productId, userId, rating.value, title, comment)]
      ensures status in {201, 400, 500}
    {
      if rating.None? || rating.value == 0 || title == "" || comment == "" {
        return 400;
      }
      if productId.Some? && exists i :: 0 <= i < |rows| && rows[i].productId == productId && rows[i].userId == userId {
        return 400;
      }
      if !RatingAllowed(rating.value) || (productId.Some? && productId.value !in products) {
        return 500;
      }
      rows := rows + [ReviewRow(nextId, productId, userId, rating.value, title, comment)];
      nextId := nextId + 1;
      return 201;
    }

    /**
     * `updateReview`: 404 unless a review with that id belongs to the caller; 500 when the new rating leaves
     * 1..5; otherwise only that review changes, and only in the fields supplied. The title's VARCHAR(255) width
     * is not modelled.
     */
    method UpdateReview(userId: UserId, id: nat, rating: Option<int>, title: Option<string>, comment: Option<string>)
      returns (status: int)
      requires Valid()
      modifies this
      ensures Valid() && nextId == old(nextId)
      ensures !Owns(old(rows), id, userId) ==> status == 404 && rows == old(rows)
      ensures Owns(old(rows), id, userId) && rating.Some? && !RatingAllowed(rating.value) ==> status == 500 && rows == old(rows)
      ensures Owns(old(rows), id, userId) && (rating.None? || RatingAllowed(rating.value)) ==>
                && status == 200
                && |rows| == |old(rows)|
                && forall i :: 0 <= i < |rows| ==>
                     rows[i] == if old(rows)[i].id == id then Patched(old(rows)[i], rating, title, comment) else old(rows)[i]
    {
      if !(exists i :: 0 <= i < |rows| && rows[i].id == id && rows[i].userId == userId) {
        return 404;
      }
      var i :| 0 <= i < |rows| && rows[i].id == id && rows[i].userId == userId;
      if rating.Some? && !RatingAllowed(rating.value) {
        return 500;
      }
      PatchKeepsWellFormed(rows, nextId, i, rating, title, comment);
      rows := rows[i := Patched(rows[i], rating, title, comment)];
      return 200;
    }

    /** `deleteReview`: 404 unless a review with that id belongs to the caller; otherwise exactly that review is removed. */
    method DeleteReview(userId: UserId, id: nat) returns (status: int)
      requires Valid()
      modifies this
      ensures Valid() && nextId == old(nextId)
      ensures !Owns(old(rows), id, userId) ==> status == 404 && rows == old(rows)
      ensures Owns(old(rows), id, userId) ==> status == 200 && rows == WithoutReview(old(rows), id)
    {
      if !(exists i :: 0 <= i < |rows| && rows[i].id == id && rows[i].userId == userId) {
        return 404;
      }
      var i :| 0 <= i < |rows| && rows[i].id == id && rows[i].userId == userId;
      WithoutReviewAt(rows, i);
      RemovalKeepsWellFormed(rows, nextId, i);
      rows := rows[..i] + rows[i + 1..];
      return 200;
    }
  }

  // ---------------------------------------------------------------------
  // getProductReviews

  /** The product's reviews in creation order. */
  function ForProduct(rows: seq<ReviewRow>, productId: ProductId): seq<ReviewRow>
  {
    if rows == [] then []
    else ForProduct(rows[..|rows| - 1], productId)
         + (if rows[|rows| - 1].productId == Some(productId) then [rows[|rows| - 1]] else [])
  }

  lemma {:induction false} ForProductMembers(rows: seq<ReviewRow>, productId: ProductId)
    ensures forall x :: x in ForProduct(rows, productId) <==> x in rows && x.productId == Some(productId)
  {
    if rows != [] {
      var init := rows[..|rows| - 1];
      ForProductMembers(init, productId);
      assert rows == init + [rows[|rows| - 1]];
    }
  }

  function Reversed<T>(s: seq<T>): (r: seq<T>)
    ensures |r| == |s| && forall i :: 0 <= i < |s| ==> r[i] == s[|s| - 1 - i]
  {
    if s == [] then [] else [s[|s| - 1]] + Reversed(s[..|s| - 1])
  }

  function RatingTotal(rs: seq<ReviewRow>): int
  {
    if rs == [] then 0 else RatingTotal(rs[..|rs| - 1]) + rs[|rs| - 1].rating
  }

  datatype ReviewSummary = ReviewSummary(reviews: seq<ReviewRow>, averageRating: real, totalReviews: nat)

  /** Newest first; AVG(rating), or 0 when the product has no reviews (AVG is NULL); and the count. */
  function GetProductReviews(rows: seq<ReviewRow>, productId: ProductId): ReviewSummary
  {
    var own := ForProduct(rows, productId);
    ReviewSummary(Reversed(own), Average(own), |own|)
  }

  function Average(rs: seq<ReviewRow>): real
  {
    if |rs| == 0 then 0.0 else (RatingTotal(rs) as real) / (|rs| as real)
  }

  lemma {:induction false} RatingTotalBounds(rs: seq<ReviewRow>)
    requires forall i :: 0 <= i < |rs| ==> RatingAllowed(rs[i].rating)
    ensures MinRating * |rs| <= RatingTotal(rs) <= MaxRating * |rs|
  {
    if rs != [] {
      RatingTotalBounds(rs[..|rs| - 1]);
    }
  }

  /** The listing holds exactly the product's reviews, newest first, and `totalReviews` counts them. */
  lemma ListingFacts(rows: seq<ReviewRow>, productId: ProductId)
    ensures var s := GetProductReviews(rows, productId);
            var own := ForProduct(rows, productId);
            && s.totalReviews == |s.reviews|
            && (forall x :: x in s.reviews <==> x in rows && x.productId == Some(productId))
            && (forall k :: 0 <= k < |own| ==> s.reviews[k] == own[|own| - 1 - k])
  {
    var s := GetProductReviews(rows, productId);
    var own := ForProduct(rows, productId);
    assert s.reviews == Reversed(own) && s.totalReviews == |own|;
    assert forall x :: x in s.reviews <==> x in rows && x.productId == Some(productId) by {
      ForProductMembers(rows, productId);
      ReversedMembers(own);
    }
  }

  lemma ReversedMembers<T>(s: seq<T>)
    ensures forall x :: x in Reversed(s) <==> x in s
  {
    var r := Reversed(s);
    forall x | x in r ensures x in s {
      var k :| 0 <= k < |r| && r[k] == x;
      assert s[|s| - 1 - k] == x;
    }
    forall x | x in s ensures x in r {
      var k :| 0 <= k < |s| && s[k] == x;
      assert r[|s| - 1 - k] == x;
    }
  }

  /** The average is 0 with no reviews and otherwise their mean, which lies within the rating range. */
  lemma AverageFacts(rows: seq<ReviewRow>, nextId: nat, productId: ProductId)
    requires WellFormed(rows, nextId)
    ensures var s := GetProductReviews(rows, productId);
            && (s.totalReviews == 0 <==> s.averageRating == 0.0)
            && (s.totalReviews > 0 ==>
                  && s.averageRating * (s.totalReviews as real) == RatingTotal(ForProduct(rows, productId)) as real
                  && MinRating as real <= s.averageRating <= MaxRating as real)
  {
    AverageZeroIffNone(rows, productId);
    AverageTimesCount(rows, productId);
    AverageInRange(rows, productId);
  }

  lemma AverageZeroIffNone(rows: seq<ReviewRow>, productId: ProductId)
    requires forall i :: 0 <= i < |rows| ==> RatingAllowed(rows[i].rating)
    ensures var s := GetProductReviews(rows, productId);
            s.totalReviews == 0 <==> s.averageRating == 0.0
  {
    var own := ForProduct(rows, productId);
    if |own| > 0 {
      ForProductRatings(rows, productId);
      RatingTotalBounds(own);
      assert RatingTotal(own) > 0;
    }
  }

  lemma AverageTimesCount(rows: seq<ReviewRow>, productId: ProductId)
    ensures var s := GetProductReviews(rows, productId);
            s.totalReviews > 0 ==> s.averageRating * (s.totalReviews as real) == RatingTotal(ForProduct(rows, productId)) as real
  {
    var own := ForProduct(rows, productId);
    if |own| > 0 {
      DivisionTimes(RatingTotal(own) as real, |own| as real);
    }
  }

  lemma AverageInRange(rows: seq<ReviewRow>, productId: ProductId)
    requires forall i :: 0 <= i < |rows| ==> RatingAllowed(rows[i].rating)
    ensures var s := GetProductReviews(rows, productId);
            s.totalReviews > 0 ==> MinRating as real <= s.averageRating <= MaxRating as real
  {
    var own := ForProduct(rows, productId);
    if |own| > 0 {
      ForProductRatings(rows, productId);
      RatingTotalBounds(own);
      MeanBounds(RatingTotal(own), |own|, Average(own));
    }
  }

  lemma {:induction false} ForProductRatings(rows: seq<ReviewRow>, productId: ProductId)
    requires forall i :: 0 <= i < |rows| ==> RatingAllowed(rows[i].rating)
    ensures forall i :: 0 <= i < |ForProduct(rows, productId)| ==> RatingAllowed(ForProduct(rows, productId)[i].rating)
  {
    if rows != [] {
      ForProductRatings(rows[..|rows| - 1], productId);
    }
  }

  lemma MeanBounds(total: int, n: nat, mean: real)
    requires n > 0 && MinRating * n <= total <= MaxRating * n && mean == (total as real) / (n as real)
    ensures MinRating as real <= mean <= MaxRating as real
  {
    DivisionBounds(total as real, n as real, MinRating as real, MaxRating as real);
  }

  lemma DivisionTimes(total: real, n: real)
    requires n > 0.0
    ensures (total / n) * n == total
  {
  }

  lemma DivisionBounds(total: real, n: real, lo: real, hi: real)
    requires n > 0.0 && lo * n <= total <= hi * n
    ensures lo <= total / n <= hi
  {
  }
}
