/**
 * The storefront's static review helpers (src/data/reviews.ts):
 * `getProductReviews` and `getAverageRating`. The average is computed
 * exactly, in whole tenths of a star, as
 * `Math.round(sum / count * 10)` with `Math.round(x) = floor(x + 1/2)`.
 */
module ReviewData {

  datatype Review = Review(
    id: string,
    productId: string,
    author: string,
    rating: int,
    title: string,
    comment: string,
    date: string,
    verified: bool,
    helpful: int)

  /** `reviews.filter(review => review.productId === productId)` */
  function ProductReviews(all: seq<Review>, productId: string): (r: seq<Review>)
    ensures |r| <= |all|
    ensures forall x :: x in r <==> x in all && x.productId == productId
  {
    if all == [] then []
    else if all[0].productId == productId then [all[0]] + ProductReviews(all[1..], productId)
    else ProductReviews(all[1..], productId)
  }

  function RatingSum(rs: seq<Review>): int
  {
    if rs == [] then 0 else rs[0].rating + RatingSum(rs[1..])
  }

  /** `Math.round(sum / n * 10)`, exactly: floor(10·sum/n + 1/2). */
  function RoundedTenths(sum: int, n: nat): int
    requires n > 0
  {
    (20 * sum + n) / (2 * n)
  }

  /** The rounded value is the tenth nearest to 10·sum/n, halves going up. */
  lemma NearestTenth(sum: int, n: nat)
    requires n > 0
    ensures 2 * RoundedTenths(sum, n) * n - n <= 20 * sum < 2 * RoundedTenths(sum, n) * n + n
  {
    var x := 20 * sum + n;
    var d := 2 * n;
    var t := x / d;
    assert x == d * t + x % d;
    assert 0 <= x % d < d;
    assert d * t == 2 * t * n;
  }

  /** The mean of ratings between 1 and n·5 stars rounds to between 1.0 and 5.0. */
  lemma TenthsWithinStars(sum: int, n: nat)
    requires n > 0 && n <= sum <= 5 * n
    ensures 10 <= RoundedTenths(sum, n) <= 50
  {
    NearestTenth(sum, n);
  }

  /** The average of a list of reviews, in tenths. */
  function AverageTenths(rs: seq<Review>): int
  {
    if |rs| == 0 then 0 else RoundedTenths(RatingSum(rs), |rs|)
  }

  /** `getAverageRating(productId)`, in tenths: 0 without reviews, else the mean rounded half up to one decimal. */
  function AverageRatingTenths(all: seq<Review>, productId: string): int
  {
    AverageTenths(ProductReviews(all, productId))
  }

  /** The filter keeps the reviews' original order. */
  lemma {:induction false} ProductReviewsAppend(a: seq<Review>, b: seq<Review>, productId: string)
    ensures ProductReviews(a + b, productId) == ProductReviews(a, productId) + ProductReviews(b, productId)
  {
    if a == [] {
      assert a + b == b;
    } else {
      assert (a + b)[1..] == a[1..] + b;
      ProductReviewsAppend(a[1..], b, productId);
    }
  }

  /** A product without reviews averages 0. */
  lemma NoReviewsAveragesZero(all: seq<Review>, productId: string)
    requires forall x :: x in all ==> x.productId != productId
    ensures AverageRatingTenths(all, productId) == 0
  {
    NoOthers(all, productId);
  }

  /** The result is the tenth nearest to the exact mean 10·sum/count, halves rounding up. */
  lemma AverageIsNearestTenth(all: seq<Review>, productId: string)
    requires ProductReviews(all, productId) != []
    ensures var rs := ProductReviews(all, productId);
            var n := |rs|;
            var t := AverageRatingTenths(all, productId);
            2 * t * n - n <= 20 * RatingSum(rs) < 2 * t * n + n
  {
    var rs := ProductReviews(all, productId);
    NearestTenth(RatingSum(rs), |rs|);
  }

  lemma {:induction false} RatingSumBounds(rs: seq<Review>)
    requires forall x :: x in rs ==> 1 <= x.rating <= 5
    ensures |rs| <= RatingSum(rs) <= 5 * |rs|
  {
    if rs != [] {
      assert rs[0] in rs;
      RatingSumBounds(rs[1..]);
    }
  }

  /** With every rating between 1 and 5 stars and at least one review, the average lies between 1.0 and 5.0. */
  lemma AverageWithinStars(all: seq<Review>, productId: string)
    requires forall x :: x in all ==> 1 <= x.rating <= 5
    requires ProductReviews(all, productId) != []
    ensures 10 <= AverageRatingTenths(all, productId) <= 50
  {
    var rs := ProductReviews(all, productId);
    RatingSumBounds(rs);
    TenthsWithinStars(RatingSum(rs), |rs|);
  }

  /** The average depends only on that product's reviews: others may be added anywhere without changing it. */
  lemma AverageIsLocal(all: seq<Review>, others: seq<Review>, productId: string)
    requires forall x :: x in others ==> x.productId != productId
    ensures AverageRatingTenths(all + others, productId) == AverageRatingTenths(all, productId)
    ensures AverageRatingTenths(others + all, productId) == AverageRatingTenths(all, productId)
    ensures AverageRatingTenths(ProductReviews(all, productId), productId) == AverageRatingTenths(all, productId)
  {
    var own := ProductReviews(all, productId);
    ProductReviewsAppend(all, others, productId);
    ProductReviewsAppend(others, all, productId);
    NoOthers(others, productId);
    assert own + [] == own && [] + own == own;
    OnlyOwn(own, productId);
  }

  lemma {:induction false} NoOthers(others: seq<Review>, productId: string)
    requires forall x :: x in others ==> x.productId != productId
    ensures ProductReviews(others, productId) == []
  {
    if others != [] {
      assert others[0] in others;
      NoOthers(others[1..], productId);
    }
  }

  lemma {:induction false} OnlyOwn(rs: seq<Review>, productId: string)
    requires forall x :: x in rs ==> x.productId == productId
    ensures ProductReviews(rs, productId) == rs
  {
    if rs != [] {
      assert rs[0] in rs;
      OnlyOwn(rs[1..], productId);
    }
  }
}
