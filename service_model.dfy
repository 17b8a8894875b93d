/** The Service document: status enum, price/duration/rating bounds and the
    embedded list of reviews, with the aggregate rating as their mean. */
module ServiceModel {
  import opened Common

  datatype ServiceStatus = Available | Unavailable

  function ServiceStatusName(s: ServiceStatus): string
  {
    match s
    case Available => "available"
    case Unavailable => "unavailable"
  }

  /** The schema's enum check on a service-status string. */
  function ParseServiceStatus(x: string): (r: Option<ServiceStatus>)
    ensures r.Some? ==> ServiceStatusName(r.value) == x
    ensures r.None? ==> forall s: ServiceStatus :: ServiceStatusName(s) != x
  {
    if x == "available" then Some(Available)
    else if x == "unavailable" then Some(Unavailable)
    else None
  }

  /** An embedded review; `createdAt` defaults to the time it is added. */
  datatype Review = Review(user: Id, rating: int, comment: string, createdAt: int)

  /** A service document. Prices are whole cents. */
  datatype Service = Service(
    title: string,
    description: string,
    category: Id,
    provider: Id,
    price: int,
    duration: int,
    images: seq<string>,
    status: ServiceStatus,
    rating: real,
    reviews: seq<Review>,
    orders: seq<Id>,
    createdAt: int)

  /** A review passes the schema: an integer rating in 1..5, a non-empty comment. */
  predicate ValidReview(r: Review)
  {
    1 <= r.rating <= 5 && r.comment != ""
  }

  predicate ValidReviews(rs: seq<Review>)
  {
    forall i :: 0 <= i < |rs| ==> ValidReview(rs[i])
  }

  /** The schema's validators: required title and description, price and
      duration at least 0, every image a required string, aggregate rating
      in [0, 5], every review valid. */
  predicate ValidService(s: Service)
  {
    && s.title != "" && s.description != ""
    && s.price >= 0 && s.duration >= 0
    && (forall i :: 0 <= i < |s.images| ==> s.images[i] != "")
    && 0.0 <= s.rating <= 5.0
    && ValidReviews(s.reviews)
  }

  /** A new document with the schema's defaults: available, rating 0, no
      reviews, no orders. */
  function NewService(title: string, description: string, category: Id, provider: Id,
                      price: int, duration: int, images: seq<string>, now: int): (s: Service)
    ensures s.status == Available && s.rating == 0.0 && s.reviews == [] && s.orders == []
    ensures ValidService(s) <==>
              title != "" && description != "" && price >= 0 && duration >= 0
              && forall i :: 0 <= i < |images| ==> images[i] != ""
  {
    Service(title, description, category, provider, price, duration, images,
            Available, 0.0, [], [], now)
  }

  /** `reviews.find(review => review.user == user)` found something. */
  predicate ReviewedBy(rs: seq<Review>, user: Id)
  {
    exists i :: 0 <= i < |rs| && rs[i].user == user
  }

  /** `reviews.reduce((acc, review) => review.rating + acc, 0)`, folded from
      the left as `reduce` does. */
  function RatingSum(rs: seq<Review>): int
  {
    if rs == [] then 0 else RatingSum(rs[..|rs| - 1]) + rs[|rs| - 1].rating
  }

  /** The aggregate rating: the sum divided by the number of reviews. */
  function MeanRating(rs: seq<Review>): real
    requires |rs| > 0
  {
    RatingSum(rs) as real / |rs| as real
  }

  /** Each review contributes between 1 and 5 to the sum. */
  lemma {:induction false} RatingSumBounds(rs: seq<Review>)
    requires ValidReviews(rs)
    ensures |rs| <= RatingSum(rs) <= 5 * |rs|
  {
    if rs != [] {
      var init := rs[..|rs| - 1];
      assert ValidReviews(init) by {
        forall i | 0 <= i < |init| ensures ValidReview(init[i]) {
          assert init[i] == rs[i];
        }
      }
      RatingSumBounds(init);
      assert ValidReview(rs[|rs| - 1]);
    }
  }

  /** With every review rated 1..5 the mean lies in [1, 5], so it always
      passes the schema's [0, 5] bound on the aggregate rating. */
  lemma MeanRatingInRange(rs: seq<Review>)
    requires |rs| > 0 && ValidReviews(rs)
    ensures 1.0 <= MeanRating(rs) <= 5.0
  {
    RatingSumBounds(rs);
    QuotientBounds(RatingSum(rs) as real, |rs| as real);
  }

  /** A sum between n and 5n, divided by n > 0, lies between 1 and 5. */
  lemma QuotientBounds(sum: real, n: real)
    requires n > 0.0 && n <= sum <= 5.0 * n
    ensures 1.0 <= sum / n <= 5.0
  {
    var m := sum / n;
    QuotientTimes(sum, n);
    if m < 1.0 {
      MulLess(m, 1.0, n);
    }
    if 5.0 < m {
      MulLess(5.0, m, n);
    }
  }

  /** Multiplying back by the divisor. */
  lemma QuotientTimes(sum: real, n: real)
    requires n != 0.0
    ensures (sum / n) * n == sum
  {
  }

  /** Multiplication by a positive number keeps a strict order. */
  lemma MulLess(a: real, b: real, n: real)
    requires n > 0.0 && a < b
    ensures a * n < b * n
  {
  }

  /** Appending one review adds exactly its rating to the sum. */
  lemma RatingSumAppend(rs: seq<Review>, r: Review)
    ensures RatingSum(rs + [r]) == RatingSum(rs) + r.rating
  {
    assert (rs + [r])[..|rs + [r]| - 1] == rs;
  }
}
