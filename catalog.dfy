/** The product controller: the listing and its pages, the featured list,
    the brand list, product updates and reviews. The listing's keyword,
    category, brand and price filters are built into a database query; here
    they are one caller-given predicate `matches`, and a query result is the
    collection's products in the query's sort order. */
module Catalog {
  import opened Domain
  import opened Store
  import Seqs
  import Pagination
  import ProductRules

  const ProductsPageSize: nat := 12
  const FeaturedLimit: nat := 6

  /** The query result of `getProducts` before paging: the active products
      that match the filters, in the listing's order. */
  function Listed(products: seq<Product>, matches: Product -> bool): (r: seq<Product>)
    ensures forall p :: p in r <==> p in products && p.isActive && matches(p)
  {
    Seqs.FilterMembers(products, (p: Product) => matches(p) && p.isActive);
    Seqs.Filter(products, (p: Product) => matches(p) && p.isActive)
  }

  /** `getProducts`: the active products that match the filters, twelve per page. */
  function GetProducts(products: seq<Product>, matches: Product -> bool, pageNumber: Option<int>)
    : (r: Result<Pagination.Page<Product>>)
    ensures r.Ok? <==> Pagination.PageNumber(pageNumber) >= 1
    ensures r.Ok? ==> |r.value.items| <= ProductsPageSize
    ensures r.Ok? ==> forall i :: 0 <= i < |r.value.items| ==>
      var p := r.value.items[i]; p in products && p.isActive && matches(p)
    ensures r.Ok? ==>
      && r.value.page == Pagination.PageNumber(pageNumber)
      && r.value.items == Pagination.Slice(Listed(products, matches), ProductsPageSize * (r.value.page - 1), ProductsPageSize)
      && r.value.total == |Listed(products, matches)|
      && r.value.pages == Pagination.PageCount(|Listed(products, matches)|, ProductsPageSize)
  {
    var listed := Listed(products, matches);
    var r := Pagination.Paginate(listed, ProductsPageSize, pageNumber);
    if r.Ok? then
      assert forall i :: 0 <= i < |r.value.items| ==> r.value.items[i] in listed;
      r
    else r
  }

  /** `getFeaturedProducts`: at most six products, all featured and active;
      when there are fewer than six such products, all of them. They are the
      first ones of the listing, which the query sorts newest first. */
  function FeaturedProducts(products: seq<Product>): (r: seq<Product>)
    ensures |r| <= FeaturedLimit
    ensures forall i :: 0 <= i < |r| ==> r[i] in products && r[i].isFeatured && r[i].isActive
    ensures |r| < FeaturedLimit ==>
      forall p :: p in products && p.isFeatured && p.isActive ==> p in r
    ensures var featured := Seqs.Filter(products, (p: Product) => p.isFeatured && p.isActive);
      && |r| == (if |featured| < FeaturedLimit then |featured| else FeaturedLimit)
      && r == featured[..|r|]
  {
    Seqs.FilterMembers(products, (p: Product) => p.isFeatured && p.isActive);
    var featured := Seqs.Filter(products, (p: Product) => p.isFeatured && p.isActive);
    var r := if |featured| <= FeaturedLimit then featured else featured[..FeaturedLimit];
    assert forall i :: 0 <= i < |r| ==> r[i] in featured;
    r
  }

  /** `getBrands`: the distinct brand values with the falsy (empty) ones dropped. */
  function Brands(products: seq<Product>): (r: seq<string>)
    ensures Seqs.NoDuplicates(r)
    ensures forall b :: b in r <==> b != "" && exists i :: 0 <= i < |products| && products[i].brand == b
  {
    var brands := seq(|products|, i requires 0 <= i < |products| => products[i].brand);
    assert forall b :: b in brands <==> exists i :: 0 <= i < |products| && products[i].brand == b by {
      forall b | b in brands
        ensures exists i :: 0 <= i < |products| && products[i].brand == b
      {
        var i :| 0 <= i < |brands| && brands[i] == b;
      }
      forall i | 0 <= i < |products|
        ensures products[i].brand in brands
      {
        assert brands[i] == products[i].brand;
      }
    }
    Seqs.FilterMembers(Seqs.Distinct(brands), (b: string) => b != "");
    Seqs.FilterKeepsDistinct(Seqs.Distinct(brands), (b: string) => b != "");
    Seqs.Filter(Seqs.Distinct(brands), (b: string) => b != "")
  }

  /** `updateProduct`: the merge rules of the request body on an existing product. */
  method UpdateProduct(db: Db, id: ProductId, patch: ProductRules.ProductPatch) returns (r: Result<Product>)
    modifies db`products
    ensures id !in old(db.products) ==> r == Err(ProductNotFound) && unchanged(db)
    ensures id in old(db.products) ==>
      && r == Ok(ProductRules.Merge(old(db.products)[id], patch))
      && db.products == old(db.products)[id := r.value]
    ensures old(db.Valid()) ==> db.Valid()
  {
    if id !in db.products {
      return Err(ProductNotFound);
    }
    var product := ProductRules.Merge(db.products[id], patch);
    db.products := db.products[id := product];
    r := Ok(product);
  }

  /** `createProductReview`: one review per user. A new review is appended,
      `numReviews` becomes the number of reviews and `rating` their average. */
  method CreateProductReview(db: Db, actor: Actor, id: ProductId, rating: int, comment: string) returns (r: Result<()>)
    modifies db`products
    ensures id !in old(db.products) ==> r == Err(ProductNotFound) && unchanged(db)
    ensures id in old(db.products) && ProductRules.HasReviewed(old(db.products)[id].reviews, actor.id) ==>
      r == Err(AlreadyReviewed) && unchanged(db)
    ensures id in old(db.products) && !ProductRules.HasReviewed(old(db.products)[id].reviews, actor.id) ==>
      var p := old(db.products)[id];
      var reviews := p.reviews + [Review(actor.name, rating, comment, actor.id)];
      && r == Ok(())
      && db.products == old(db.products)[id := p.(reviews := reviews, numReviews := |reviews|,
                                                  rating := ProductRules.AverageRating(reviews))]
    ensures old(db.Valid()) ==> db.Valid()
  {
    if id !in db.products {
      return Err(ProductNotFound);
    }
    var product := db.products[id];
    if ProductRules.HasReviewed(product.reviews, actor.id) {
      return Err(AlreadyReviewed);
    }
    var review := Review(actor.name, rating, comment, actor.id);
    if old(db.Valid()) {
      ProductRules.AddReviewKeepsUnique(product.reviews, review);
    }
    var reviews := product.reviews + [review];
    product := product.(reviews := reviews, numReviews := |reviews|,
                        rating := ProductRules.AverageRating(reviews));
    db.products := db.products[id := product];
    r := Ok(());
  }
}
