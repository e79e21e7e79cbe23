/** The value-level rules of the product controller: how `updateProduct`
    merges a request into a product, and how reviews are counted and averaged
    by `createProductReview`. */
module ProductRules {
  import opened Domain

  /** The body of an update request: `None` is a field the request leaves out (or sends as null). */
  datatype ProductPatch = ProductPatch(
    name: Option<string>,
    price: Option<int>,
    description: Option<string>,
    category: Option<string>,
    brand: Option<string>,
    stock: Option<int>,
    images: Option<seq<string>>,
    features: Option<seq<string>>,
    tags: Option<seq<string>>,
    sku: Option<string>,
    weight: Option<int>,
    dimensions: Option<Dimensions>,
    discount: Option<int>,
    discountEndDate: Option<string>,
    shippingInfo: Option<ShippingInfo>,
    isActive: Option<bool>,
    isFeatured: Option<bool>)

  const NoChanges := ProductPatch(None, None, None, None, None, None, None, None, None,
                                  None, None, None, None, None, None, None, None)

  /** `supplied || current` for a string: the empty string is falsy. */
  function OrString(supplied: Option<string>, current: string): string
  {
    if Truthy(supplied) then supplied.value else current
  }

  /** `supplied || current` for a number: 0 is falsy. */
  function OrNumber(supplied: Option<int>, current: int): int
  {
    if supplied.Some? && supplied.value != 0 then supplied.value else current
  }

  /** `supplied !== undefined ? supplied : current`. It is also `supplied || current`
      for arrays and objects, which are truthy whenever present, even when empty. */
  function IfSupplied<T>(supplied: Option<T>, current: T): T
  {
    if supplied.Some? then supplied.value else current
  }

  /** The field assignments of `updateProduct`. Reviews, their count and the rating are not touched. */
  function Merge(p: Product, u: ProductPatch): Product
  {
    p.(
      name := OrString(u.name, p.name),
      price := OrNumber(u.price, p.price),
      description := OrString(u.description, p.description),
      category := OrString(u.category, p.category),
      brand := OrString(u.brand, p.brand),
      stock := IfSupplied(u.stock, p.stock),
      images := IfSupplied(u.images, p.images),
      features := IfSupplied(u.features, p.features),
      tags := IfSupplied(u.tags, p.tags),
      sku := OrString(u.sku, p.sku),
      weight := OrNumber(u.weight, p.weight),
      dimensions := IfSupplied(u.dimensions, p.dimensions),
      discount := IfSupplied(u.discount, p.discount),
      discountEndDate := OrString(u.discountEndDate, p.discountEndDate),
      shippingInfo := IfSupplied(u.shippingInfo, p.shippingInfo),
      isActive := IfSupplied(u.isActive, p.isActive),
      isFeatured := IfSupplied(u.isFeatured, p.isFeatured))
  }

  /** `stock`, `discount`, `isActive` and `isFeatured` take any supplied value,
      0 and false included, and keep their value when not supplied. So do the
      array and object fields, which are truthy whenever they are present. */
  lemma {:induction false} MergeSetsWhenSupplied(p: Product, u: ProductPatch)
    ensures var r := Merge(p, u);
      && r.stock == (if u.stock.Some? then u.stock.value else p.stock)
      && r.discount == (if u.discount.Some? then u.discount.value else p.discount)
      && r.isActive == (if u.isActive.Some? then u.isActive.value else p.isActive)
      && r.isFeatured == (if u.isFeatured.Some? then u.isFeatured.value else p.isFeatured)
      && r.images == (if u.images.Some? then u.images.value else p.images)
      && r.features == (if u.features.Some? then u.features.value else p.features)
      && r.tags == (if u.tags.Some? then u.tags.value else p.tags)
      && r.dimensions == (if u.dimensions.Some? then u.dimensions.value else p.dimensions)
      && r.shippingInfo == (if u.shippingInfo.Some? then u.shippingInfo.value else p.shippingInfo)
  {
  }

  /** The number and string fields change only to a supplied truthy value,
      and always do when one is supplied. So `price` can never be set to 0. */
  lemma {:induction false} MergeSetsOnlyTruthy(p: Product, u: ProductPatch)
    ensures var r := Merge(p, u);
      && (r.price != p.price ==> u.price == Some(r.price) && r.price != 0)
      && (u.price.Some? && u.price.value != 0 ==> r.price == u.price.value)
      && (u.price == Some(0) ==> r.price == p.price)
      && (r.weight != p.weight ==> u.weight == Some(r.weight) && r.weight != 0)
      && (u.weight.Some? && u.weight.value != 0 ==> r.weight == u.weight.value)
      && (r.name != p.name ==> u.name == Some(r.name) && r.name != "")
      && (u.name.Some? && u.name.value != "" ==> r.name == u.name.value)
      && (r.description != p.description ==> u.description == Some(r.description) && r.description != "")
      && (u.description.Some? && u.description.value != "" ==> r.description == u.description.value)
      && (r.category != p.category ==> u.category == Some(r.category) && r.category != "")
      && (u.category.Some? && u.category.value != "" ==> r.category == u.category.value)
      && (r.brand != p.brand ==> u.brand == Some(r.brand) && r.brand != "")
      && (u.brand.Some? && u.brand.value != "" ==> r.brand == u.brand.value)
      && (r.sku != p.sku ==> u.sku == Some(r.sku) && r.sku != "")
      && (u.sku.Some? && u.sku.value != "" ==> r.sku == u.sku.value)
      && (r.discountEndDate != p.discountEndDate ==> u.discountEndDate == Some(r.discountEndDate) && r.discountEndDate != "")
      && (u.discountEndDate.Some? && u.discountEndDate.value != "" ==> r.discountEndDate == u.discountEndDate.value)
  {
  }

  /** A product with a price keeps a non-zero price whatever the update says. */
  lemma {:induction false} MergeNeverZeroesPrice(p: Product, u: ProductPatch)
    requires p.price != 0
    ensures Merge(p, u).price != 0
  {
  }

  /** An empty update changes nothing, applying the same update twice is
      applying it once, and the reviews, their count and the rating are kept. */
  lemma {:induction false} MergeLaws(p: Product, u: ProductPatch)
    ensures Merge(p, NoChanges) == p
    ensures Merge(Merge(p, u), u) == Merge(p, u)
    ensures Merge(p, u).reviews == p.reviews
    ensures Merge(p, u).numReviews == p.numReviews && Merge(p, u).rating == p.rating
  {
  }

  // ----- reviews -----

  /** `reviews.find(r => r.user === user)` found something. */
  predicate HasReviewed(reviews: seq<Review>, user: UserId)
  {
    exists i :: 0 <= i < |reviews| && reviews[i].user == user
  }

  /** One review per user. */
  ghost predicate ReviewersUnique(reviews: seq<Review>)
  {
    forall i, j :: 0 <= i < j < |reviews| ==> reviews[i].user != reviews[j].user
  }

  /** What `createProductReview` keeps true of a product: one review per user, and `numReviews` counts them. */
  ghost predicate ReviewsConsistent(p: Product)
  {
    ReviewersUnique(p.reviews) && p.numReviews == |p.reviews|
  }

  /** `reviews.reduce((acc, item) => item.rating + acc, 0)`. */
  function SumRatings(reviews: seq<Review>): int
  {
    if |reviews| == 0 then 0 else SumRatings(reviews[..|reviews| - 1]) + reviews[|reviews| - 1].rating
  }

  /** The stored `rating`: the sum of the ratings over their number. */
  function AverageRating(reviews: seq<Review>): real
    requires |reviews| > 0
  {
    Quotient(SumRatings(reviews), |reviews|)
  }

  /** Exact division of a sum by a positive count. */
  function Quotient(sum: int, count: int): real
    requires count > 0
  {
    sum as real / count as real
  }

  /** Appending a review adds its rating to the sum. */
  lemma {:induction false} SumRatingsAppend(reviews: seq<Review>, review: Review)
    ensures SumRatings(reviews + [review]) == SumRatings(reviews) + review.rating
  {
    assert (reviews + [review])[..|reviews|] == reviews;
  }

  /** The sum of ratings that all lie in `[lo, hi]` lies between `n * lo` and `n * hi`. */
  lemma {:induction false} SumRatingsBounds(reviews: seq<Review>, lo: int, hi: int)
    requires forall i :: 0 <= i < |reviews| ==> lo <= reviews[i].rating <= hi
    ensures |reviews| * lo <= SumRatings(reviews) <= |reviews| * hi
  {
    if |reviews| > 0 {
      var n := |reviews|;
      SumRatingsBounds(reviews[..n - 1], lo, hi);
      assert n * lo == (n - 1) * lo + lo;
      assert n * hi == (n - 1) * hi + hi;
    }
  }

  /** The average of ratings that all lie in `[lo, hi]` lies in `[lo, hi]`:
      with ratings from 1 to 5 the stored rating is between 1 and 5. */
  lemma {:induction false} AverageWithinBounds(reviews: seq<Review>, lo: int, hi: int)
    requires |reviews| > 0
    requires forall i :: 0 <= i < |reviews| ==> lo <= reviews[i].rating <= hi
    ensures lo as real <= AverageRating(reviews) <= hi as real
  {
    var n := |reviews| as real;
    var s := SumRatings(reviews) as real;
    SumRatingsBounds(reviews, lo, hi);
    assert n * (lo as real) <= s <= n * (hi as real);
    DivideBounds(s, n, lo as real, hi as real);
  }

  lemma {:induction false} DivideBounds(s: real, n: real, lo: real, hi: real)
    requires n > 0.0 && n * lo <= s <= n * hi
    ensures lo <= s / n <= hi
  {
  }

  /** A review by a user who has not reviewed the product keeps one review per user. */
  lemma {:induction false} AddReviewKeepsUnique(reviews: seq<Review>, review: Review)
    requires ReviewersUnique(reviews) && !HasReviewed(reviews, review.user)
    ensures ReviewersUnique(reviews + [review])
  {
  }

  /** After the append, the stored rating is the old sum plus the new rating, over the old count plus one. */
  lemma {:induction false} AverageAfterReview(reviews: seq<Review>, review: Review)
    ensures AverageRating(reviews + [review]) == Quotient(SumRatings(reviews) + review.rating, |reviews| + 1)
  {
    SumRatingsAppend(reviews, review);
  }
}
