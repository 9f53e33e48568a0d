/** The reviews store: a review list seeded with five reviews that grows by
    prepending, and the per-product queries the product page reads. */
module ReviewsStore {
  import opened Types
  import opened Seqs

  datatype Review = Review(
    id: string,
    productId: string,
    userId: string,
    userName: string,
    rating: int,
    advantages: string,
    disadvantages: string,
    comment: string,
    createdAt: string)

  /** What a caller of `addReview` supplies: a review without id and
      creation time. */
  datatype ReviewInput = ReviewInput(
    productId: string,
    userId: string,
    userName: string,
    rating: int,
    advantages: string,
    disadvantages: string,
    comment: string)

  const R1: Review := Review(
    id := "r1",
    productId := "1",
    userId := "u1",
    userName := "Анна М.",
    rating := 5,
    advantages := "Свежий, хрустящий, отличный вкус",
    disadvantages := "Нет",
    comment := "Очень вкусный миндаль! Заказываю уже третий раз, всегда свежий и качественный.",
    createdAt := "2026-01-20T10:00:00Z")

  const R2: Review := Review(
    id := "r2",
    productId := "1",
    userId := "u2",
    userName := "Дмитрий К.",
    rating := 4,
    advantages := "Хорошее качество, быстрая доставка",
    disadvantages := "Хотелось бы упаковку побольше",
    comment := "Хороший миндаль, но хотелось бы вариант упаковки 1кг.",
    createdAt := "2026-01-18T15:30:00Z")

  const R3: Review := Review(
    id := "r3",
    productId := "2",
    userId := "u3",
    userName := "Елена С.",
    rating := 5,
    advantages := "Натуральный вкус, крупные орешки",
    disadvantages := "Нет",
    comment := "Лучший кешью что я пробовала! Очень нежный и вкусный.",
    createdAt := "2026-01-15T12:00:00Z")

  const R4: Review := Review(
    id := "r4",
    productId := "3",
    userId := "u4",
    userName := "Михаил П.",
    rating := 5,
    advantages := "Сладкие, мягкие, крупные",
    disadvantages := "Цена высоковата",
    comment := "Финики просто шикарные! Как конфеты, только полезные.",
    createdAt := "2026-01-10T09:00:00Z")

  const R5: Review := Review(
    id := "r5",
    productId := "4",
    userId := "u5",
    userName := "Ольга В.",
    rating := 4,
    advantages := "Натуральная, без сахара",
    disadvantages := "Немного суховата",
    comment := "Хорошая курага, но бывает и более сочная.",
    createdAt := "2026-01-08T14:00:00Z")

  /** The seed reviews, newest first. */
  const InitialReviews: seq<Review> := [R1, R2, R3, R4, R5]

  /** The record `addReview` builds: the submitted fields, an id derived from
      the clock and the clock's timestamp. */
  function NewReview(input: ReviewInput, now: Clock): Review
  {
    Review(
    id := "review-" + Decimal(now.millis),
    productId := input.productId,
    userId := input.userId,
    userName := input.userName,
    rating := input.rating,
    advantages := input.advantages,
    disadvantages := input.disadvantages,
    comment := input.comment,
    createdAt := now.iso)
  }

  /** `getProductReviews`: the reviews of one product, in stored
      (newest-first) order. */
  function ProductReviews(reviews: seq<Review>, productId: string): (r: seq<Review>)
    ensures IsSubsequence(r, reviews)
    ensures forall x :: x in r <==> x in reviews && x.productId == productId
  {
    Filter(reviews, (x: Review) => x.productId == productId)
  }

  /** `getReviewCount`: the number of reviews of one product. */
  function ReviewCount(reviews: seq<Review>, productId: string): nat
  {
    |ProductReviews(reviews, productId)|
  }

  /** The sum of the ratings (`reduce((acc, r) => acc + r.rating, 0)`). */
  function SumRatings(reviews: seq<Review>): int
  {
    if reviews == [] then 0 else reviews[0].rating + SumRatings(reviews[1..])
  }

  /** `getAverageRating` in tenths of a star: 0 without reviews, otherwise
      the mean rounded half-up to one decimal. The result `t` is the one
      integer with `t - 1/2 <= 10 * sum / n < t + 1/2`. */
  function AverageRating(reviews: seq<Review>, productId: string): (tenths: int)
    ensures ReviewCount(reviews, productId) == 0 ==> tenths == 0
    ensures var n := ReviewCount(reviews, productId);
            var sum := SumRatings(ProductReviews(reviews, productId));
            n > 0 ==> n * (2 * tenths - 1) <= 20 * sum < n * (2 * tenths + 1)
  {
    var n := ReviewCount(reviews, productId);
    if n == 0 then 0
    else
      var sum := SumRatings(ProductReviews(reviews, productId));
      RoundedTenths(sum, n);
      (20 * sum + n) / (2 * n)
  }

  /** `(20 * sum + n) / (2 * n)` is `Math.round(10 * sum / n)`: the nearest
      integer, halves rounded up. */
  lemma RoundedTenths(sum: int, n: int)
    requires n > 0
    ensures var t := (20 * sum + n) / (2 * n);
            n * (2 * t - 1) <= 20 * sum < n * (2 * t + 1)
  {
    var t := (20 * sum + n) / (2 * n);
    var m := (20 * sum + n) % (2 * n);
    assert 20 * sum + n == (2 * n) * t + m && 0 <= m < 2 * n;
    assert n * (2 * t - 1) == (2 * n) * t - n;
    assert n * (2 * t + 1) == (2 * n) * t + n;
  }

  class Reviews {
    var reviews: seq<Review>

    /** The store starts from the seed reviews. */
    constructor ()
      ensures reviews == InitialReviews
    {
      reviews := InitialReviews;
    }

    /** `addReview`: prepends one new review carrying the submitted fields;
        the earlier list follows it unchanged. */
    method AddReview(input: ReviewInput, now: Clock)
      modifies this
      ensures reviews == [NewReview(input, now)] + old(reviews)
      ensures |reviews| == |old(reviews)| + 1 && reviews[1..] == old(reviews)
      ensures reviews[0].productId == input.productId && reviews[0].rating == input.rating
      ensures reviews[0].userId == input.userId && reviews[0].userName == input.userName
      ensures reviews[0].advantages == input.advantages
      ensures reviews[0].disadvantages == input.disadvantages
      ensures reviews[0].comment == input.comment
      ensures reviews[0].id == "review-" + Decimal(now.millis) && reviews[0].createdAt == now.iso
    {
      reviews := [NewReview(input, now)] + reviews;
    }

    /** `getProductReviews`: the stored reviews of the product, in stored
        order. */
    function GetProductReviews(productId: string): (r: seq<Review>)
      reads this
      ensures IsSubsequence(r, reviews)
      ensures forall x :: x in r <==> x in reviews && x.productId == productId
    {
      ProductReviews(reviews, productId)
    }

    /** `getAverageRating`: 0 without reviews, otherwise the mean of the
        product's ratings rounded half-up to a tenth, in tenths. */
    function GetAverageRating(productId: string): (tenths: int)
      reads this
      ensures GetProductReviews(productId) == [] ==> tenths == 0
      ensures var n := |GetProductReviews(productId)|;
              var sum := SumRatings(GetProductReviews(productId));
              n > 0 ==> n * (2 * tenths - 1) <= 20 * sum < n * (2 * tenths + 1)
    {
      AverageRating(reviews, productId)
    }

    /** `getReviewCount` is the length of `getProductReviews`. */
    function GetReviewCount(productId: string): (n: nat)
      reads this
      ensures n == |GetProductReviews(productId)|
    {
      ReviewCount(reviews, productId)
    }

    /** `canWriteReview`: the product is among the ordered product ids. It
        reads no store state. */
    static function CanWriteReview(productId: string, orderedProductIds: seq<string>): (b: bool)
      ensures b <==> exists i :: 0 <= i < |orderedProductIds| && orderedProductIds[i] == productId
    {
      productId in orderedProductIds
    }
  }

  /** Adding a review for one product leaves every other product's review
      list, and so its count and average, as it was; for its own product it
      puts the new review in front. */
  lemma {:induction false} AddReviewTouchesOnlyItsProduct(reviews: seq<Review>, r: Review, productId: string)
    ensures ProductReviews([r] + reviews, productId) ==
      (if r.productId == productId then [r] else []) + ProductReviews(reviews, productId)
    ensures r.productId != productId ==>
      ReviewCount([r] + reviews, productId) == ReviewCount(reviews, productId) &&
      AverageRating([r] + reviews, productId) == AverageRating(reviews, productId)
    ensures r.productId == productId ==>
      ReviewCount([r] + reviews, productId) == ReviewCount(reviews, productId) + 1
  {
    FilterCons(r, reviews, (x: Review) => x.productId == productId);
  }

  /** Every rating is a whole number of stars from 1 to 5. */
  predicate RatingsInRange(reviews: seq<Review>)
  {
    forall r :: r in reviews ==> 1 <= r.rating <= 5
  }

  lemma {:induction false} SumRatingsBounds(reviews: seq<Review>)
    requires RatingsInRange(reviews)
    ensures |reviews| <= SumRatings(reviews) <= 5 * |reviews|
  {
    if reviews != [] {
      assert forall r :: r in reviews[1..] ==> r in reviews;
      SumRatingsBounds(reviews[1..]);
    }
  }

  /** With ratings from 1 to 5, a product with reviews averages between
      1.0 and 5.0 stars. */
  lemma {:induction false} AverageRatingInRange(reviews: seq<Review>, productId: string)
    requires RatingsInRange(reviews)
    requires ReviewCount(reviews, productId) > 0
    ensures 10 <= AverageRating(reviews, productId) <= 50
  {
    var own := ProductReviews(reviews, productId);
    SumRatingsBounds(own);
    TenthsInRange(|own|, SumRatings(own), AverageRating(reviews, productId));
  }

  lemma TenthsInRange(n: int, sum: int, t: int)
    requires 0 < n && n <= sum <= 5 * n
    requires n * (2 * t - 1) <= 20 * sum < n * (2 * t + 1)
    ensures 10 <= t <= 50
  {
    if t < 10 {
      MulMonotone(n, 2 * t + 1, 19);
    }
    if t > 50 {
      MulMonotone(n, 101, 2 * t - 1);
    }
  }

  lemma MulMonotone(n: int, a: int, b: int)
    requires 0 <= n && a <= b
    ensures n * a <= n * b
  {
  }

  /** On the seed data, product "1" has two reviews averaging 4.5 stars and
      product "5" has none, so its average is 0. */
  lemma SeedSamples()
    ensures ReviewCount(InitialReviews, "1") == 2 && AverageRating(InitialReviews, "1") == 45
    ensures ReviewCount(InitialReviews, "5") == 0 && AverageRating(InitialReviews, "5") == 0
  {
    var one := (x: Review) => x.productId == "1";
    var five := (x: Review) => x.productId == "5";
    FilterCons(R5, [], one);
    FilterCons(R4, [R5], one);
    FilterCons(R3, [R4, R5], one);
    FilterCons(R2, [R3, R4, R5], one);
    FilterCons(R1, [R2, R3, R4, R5], one);
    assert ProductReviews(InitialReviews, "1") == [R1, R2];
    assert R1.rating == 5 && R2.rating == 4;
    assert [R1, R2][1..] == [R2] && [R2][1..] == [];
    assert SumRatings([R2]) == 4;
    assert SumRatings([R1, R2]) == 9;
    FilterNone(InitialReviews, five);
  }
}
