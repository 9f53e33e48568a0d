/** The rules of the product-reviews panel: who may write a review, the
    per-star histogram, the defaults a submitted review receives, which parts
    of a review card are shown, and when the rating badge is shown. */
module ProductReviews {
  import opened Types
  import opened Seqs
  import opened ReviewsStore
  import opened OrdersStore

  /** `order.items.map(item => item.product.id)`. */
  function ItemProductIds(items: seq<OrderItem>): (ids: seq<string>)
    ensures |ids| == |items|
    ensures forall j :: 0 <= j < |items| ==> ids[j] == items[j].product.id
  {
    seq(|items|, j requires 0 <= j < |items| => items[j].product.id)
  }

  /** Some item of some order is for this product. */
  predicate WasOrdered(orders: seq<Order>, productId: string)
  {
    exists i, j :: 0 <= i < |orders| && 0 <= j < |orders[i].items| && orders[i].items[j].product.id == productId
  }

  /** `orders.flatMap(order => order.items.map(item => item.product.id))`:
      an id is listed exactly when some item of some order is for it. */
  function OrderedProductIds(orders: seq<Order>): (ids: seq<string>)
    ensures forall id :: id in ids <==> WasOrdered(orders, id)
  {
    if orders == [] then []
    else
      var rest := OrderedProductIds(orders[1..]);
      OrderedProductIdsStep(orders, rest);
      ItemProductIds(orders[0].items) + rest
  }

  /** The step of `OrderedProductIds`: the first order's ids in front of ids
      that list exactly the products of the later orders list exactly the
      products of all orders. */
  lemma OrderedProductIdsStep(orders: seq<Order>, rest: seq<string>)
    requires orders != []
    requires forall id :: id in rest <==> WasOrdered(orders[1..], id)
    ensures forall id :: id in ItemProductIds(orders[0].items) + rest <==> WasOrdered(orders, id)
  {
    var head := ItemProductIds(orders[0].items);
    forall id
      ensures id in head + rest <==> WasOrdered(orders, id)
    {
      if id in head {
        var j :| 0 <= j < |head| && head[j] == id;
        assert orders[0].items[j].product.id == id;
      } else if id in rest {
        var i, j :| 0 <= i < |orders[1..]| && 0 <= j < |orders[1..][i].items| &&
                    orders[1..][i].items[j].product.id == id;
        assert orders[i + 1].items[j].product.id == id;
      }
      if WasOrdered(orders, id) {
        var i, j :| 0 <= i < |orders| && 0 <= j < |orders[i].items| && orders[i].items[j].product.id == id;
        if i == 0 {
          assert head[j] == id;
        } else {
          assert orders[1..][i - 1].items[j].product.id == id;
        }
      }
    }
  }

  /** `canWrite = orderedProductIds.includes(productId)`: a review may be
      written exactly when some stored order has an item for the product. */
  function CanWrite(orders: seq<Order>, productId: string): (b: bool)
    ensures b <==> WasOrdered(orders, productId)
  {
    Reviews.CanWriteReview(productId, OrderedProductIds(orders))
  }

  /** Placing an order never takes eligibility away, and grants it for
      every product of the new order. */
  lemma {:induction false} AddOrderGrantsEligibility(orders: seq<Order>, order: Order, productId: string)
    ensures CanWrite([order] + orders, productId) <==>
      (exists j :: 0 <= j < |order.items| && order.items[j].product.id == productId) ||
      CanWrite(orders, productId)
  {
    assert ([order] + orders)[1..] == orders;
    var head := ItemProductIds(order.items);
    if productId in head {
      var j :| 0 <= j < |head| && head[j] == productId;
      assert order.items[j].product.id == productId;
    }
  }

  /** One bar of the histogram: a star value and how many reviews gave it. */
  datatype StarCount = StarCount(star: int, count: nat)

  /** `reviews.filter(r => r.rating === star).length`. */
  function CountWithRating(reviews: seq<Review>, star: int): nat
  {
    |Filter(reviews, (r: Review) => r.rating == star)|
  }

  /** `ratingCounts`: stars 5, 4, 3, 2, 1 in that order, each with the
      number of reviews of exactly that rating. */
  function RatingCounts(reviews: seq<Review>): (counts: seq<StarCount>)
    ensures |counts| == 5
    ensures forall k :: 0 <= k < 5 ==> counts[k].star == 5 - k
    ensures forall k :: 0 <= k < 5 ==> counts[k].count == CountWithRating(reviews, counts[k].star)
  {
    var stars := [5, 4, 3, 2, 1];
    seq(|stars|, k requires 0 <= k < |stars| => StarCount(stars[k], CountWithRating(reviews, stars[k])))
  }

  function TotalCount(counts: seq<StarCount>): int
  {
    if counts == [] then 0 else counts[0].count + TotalCount(counts[1..])
  }

  /** When every rating is 1 to 5, the five bars add up to the number of
      reviews. */
  lemma {:induction false} RatingCountsAddUp(reviews: seq<Review>)
    requires RatingsInRange(reviews)
    ensures TotalCount(RatingCounts(reviews)) == |reviews|
  {
    var c := RatingCounts(reviews);
    assert c[4..][1..] == [];
    assert TotalCount(c[4..]) == c[4].count;
    assert c[3..][1..] == c[4..];
    assert TotalCount(c[3..]) == c[3].count + c[4].count;
    assert c[2..][1..] == c[3..];
    assert TotalCount(c[2..]) == c[2].count + c[3].count + c[4].count;
    assert c[1..][1..] == c[2..];
    assert TotalCount(c[1..]) == c[1].count + c[2].count + c[3].count + c[4].count;
    StarCountsPartition(reviews);
  }

  lemma {:induction false} StarCountsPartition(reviews: seq<Review>)
    requires RatingsInRange(reviews)
    ensures CountWithRating(reviews, 5) + CountWithRating(reviews, 4) + CountWithRating(reviews, 3) +
            CountWithRating(reviews, 2) + CountWithRating(reviews, 1) == |reviews|
    decreases |reviews|
  {
    if reviews != [] {
      var r, rest := reviews[0], reviews[1..];
      assert reviews == [r] + rest;
      assert forall x :: x in rest ==> x in reviews;
      StarCountsPartition(rest);
      forall star | 1 <= star <= 5
        ensures CountWithRating(reviews, star) == (if r.rating == star then 1 else 0) + CountWithRating(rest, star)
      {
        FilterCons(r, rest, (x: Review) => x.rating == star);
      }
    }
  }

  /** The review the write form hands to `addReview`: the host user's id
      and first name, or "guest" and "Гость" when they are missing or empty;
      "Нет" ("none") for empty disadvantages; everything else as typed. */
  function SubmittedReview(productId: string, user: Option<HostUser>, rating: int,
                           advantages: string, disadvantages: string, comment: string): (input: ReviewInput)
    ensures input.productId == productId && input.rating == rating
    ensures input.advantages == advantages && input.comment == comment
    ensures input.userId != "" && input.userName != "" && input.disadvantages != ""
    ensures user.None? || user.value.id == "" ==> input.userId == "guest"
    ensures user.None? || user.value.firstName == "" ==> input.userName == "Гость"
    ensures user.Some? && user.value.id != "" ==> input.userId == user.value.id
    ensures user.Some? && user.value.firstName != "" ==> input.userName == user.value.firstName
    ensures disadvantages == "" ==> input.disadvantages == "Нет"
    ensures disadvantages != "" ==> input.disadvantages == disadvantages
  {
    var userId := if user.Some? && user.value.id != "" then user.value.id else "guest";
    var userName := if user.Some? && user.value.firstName != "" then user.value.firstName else "Гость";
    ReviewInput(productId, userId, userName, rating, advantages,
                if disadvantages != "" then disadvantages else "Нет", comment)
  }

  datatype ReviewField = Advantages | Disadvantages | CommentText

  /** The write-review form: a rating that starts at 5 and is only ever set
      from one of the five stars, and three text inputs. */
  class WriteReviewForm {
    const productId: string
    var rating: int
    var advantages: string
    var disadvantages: string
    var comment: string

    predicate Valid()
      reads this
    {
      1 <= rating <= 5
    }

    constructor (productId: string)
      ensures Valid() && this.productId == productId
      ensures rating == 5 && advantages == "" && disadvantages == "" && comment == ""
    {
      this.productId := productId;
      rating, advantages, disadvantages, comment := 5, "", "", "";
    }

    /** A click on star `star` of the interactive star row (which only has
        stars 1 to 5). */
    method ClickStar(star: int)
      requires 1 <= star <= 5
      modifies this
      ensures Valid() && rating == star
      ensures advantages == old(advantages) && disadvantages == old(disadvantages) && comment == old(comment)
    {
      rating := star;
    }

    /** One text input's `onChange`. */
    method Edit(field: ReviewField, value: string)
      modifies this
      ensures rating == old(rating)
      ensures advantages == (if field == Advantages then value else old(advantages))
      ensures disadvantages == (if field == Disadvantages then value else old(disadvantages))
      ensures comment == (if field == CommentText then value else old(comment))
    {
      match field
      case Advantages => advantages := value;
      case Disadvantages => disadvantages := value;
      case CommentText => comment := value;
    }

    /** `handleSubmit`, with the wait left out: adds one review with the
        defaults filled in. Its rating is 1 to 5, so a store whose ratings
        are all 1 to 5 stays that way. */
    method Submit(store: Reviews, user: Option<HostUser>, now: Clock)
      requires Valid()
      modifies store
      ensures store.reviews ==
        [NewReview(SubmittedReview(productId, user, rating, advantages, disadvantages, comment), now)] +
        old(store.reviews)
      ensures 1 <= store.reviews[0].rating <= 5
      ensures RatingsInRange(old(store.reviews)) ==> RatingsInRange(store.reviews)
    {
      store.AddReview(SubmittedReview(productId, user, rating, advantages, disadvantages, comment), now);
    }
  }

  /** Every seed review rates 1 to 5 stars. */
  lemma SeedRatingsInRange()
    ensures RatingsInRange(InitialReviews)
  {
  }

  /** What the panel shows where a review can be written. */
  datatype WriteArea = WriteForm | WriteButton | PurchaseHint

  /** The form only when writing is allowed and was asked for; the button
      when allowed; otherwise the "review after purchase" hint. */
  function WriteAreaView(canWrite: bool, showWriteForm: bool): (area: WriteArea)
    ensures area == WriteForm <==> canWrite && showWriteForm
    ensures area == PurchaseHint <==> !canWrite
  {
    if !canWrite then PurchaseHint
    else if showWriteForm then WriteForm
    else WriteButton
  }

  /** The optional sections of a review card. */
  datatype ReviewCardView = ReviewCardView(
    advantages: Option<string>,
    disadvantages: Option<string>,
    comment: Option<string>)

  /** A card shows advantages and comment when non-empty, and
      disadvantages when non-empty and not the "Нет" sentinel. */
  function ReviewCard(review: Review): (card: ReviewCardView)
    ensures card.advantages.Some? <==> review.advantages != ""
    ensures card.disadvantages.Some? <==> review.disadvantages != "" && review.disadvantages != "Нет"
    ensures card.comment.Some? <==> review.comment != ""
    ensures card.advantages.Some? ==> card.advantages.value == review.advantages
    ensures card.disadvantages.Some? ==> card.disadvantages.value == review.disadvantages
    ensures card.comment.Some? ==> card.comment.value == review.comment
  {
    ReviewCardView(
      if review.advantages != "" then Some(review.advantages) else None,
      if review.disadvantages != "" && review.disadvantages != "Нет" then Some(review.disadvantages) else None,
      if review.comment != "" then Some(review.comment) else None)
  }

  /** A review written with the disadvantages left empty shows no
      disadvantages section. */
  lemma EmptyDisadvantagesStayHidden(productId: string, user: Option<HostUser>, rating: int,
                                     advantages: string, comment: string, now: Clock)
    ensures ReviewCard(NewReview(SubmittedReview(productId, user, rating, advantages, "", comment), now)).disadvantages == None
  {
  }

  datatype RatingBadgeView = RatingBadgeView(averageTenths: int, count: nat)

  /** `ProductRatingBadge`: nothing for a product without reviews,
      otherwise its average and count. */
  function RatingBadge(reviews: seq<Review>, productId: string): (badge: Option<RatingBadgeView>)
    ensures badge.None? <==> ReviewCount(reviews, productId) == 0
    ensures badge.Some? ==>
      badge.value.count == ReviewCount(reviews, productId) &&
      badge.value.averageTenths == AverageRating(reviews, productId)
  {
    var count := ReviewCount(reviews, productId);
    if count == 0 then None else Some(RatingBadgeView(AverageRating(reviews, productId), count))
  }

  /** With ratings from 1 to 5, a shown badge reads between 1.0 and 5.0. */
  lemma {:induction false} RatingBadgeInRange(reviews: seq<Review>, productId: string)
    requires RatingsInRange(reviews)
    ensures var badge := RatingBadge(reviews, productId);
            badge.Some? ==> 10 <= badge.value.averageTenths <= 50
  {
    if ReviewCount(reviews, productId) > 0 {
      AverageRatingInRange(reviews, productId);
    }
  }
}
