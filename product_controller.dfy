/** The product API: the page and sort arithmetic of the listing, the sample product, the
    field merge of an update, review admission and the category lists. */
module ProductController {
  import opened Js
  import opened Http
  import opened Strings
  import opened Decimal
  import opened Money
  import opened ProductModel

  /** ---- Listing: page number, skip, page count and sort ---- */

  const PageSize: nat := 10

  /** `Number(req.query.pageNumber) || 1`: an absent, empty, zero or unreadable page number is 1. */
  function PageNumber(param: Option<string>): (page: int)
    ensures page != 0
    ensures param.None? ==> page == 1
    ensures param.Some? && JsInteger(param.value).Some? && JsInteger(param.value).value != 0 ==>
              page == JsInteger(param.value).value
    ensures param.Some? && (JsInteger(param.value).None? || JsInteger(param.value) == Some(0)) ==> page == 1
  {
    if param.None? then 1 else OrNumber(JsInteger(param.value), 1)
  }

  /** A page number written in digits is read as itself; "0" and "" fall back to page 1. */
  lemma PageNumberOfDigits(n: nat)
    ensures PageNumber(Some(NatToString(n))) == if n == 0 then 1 else n
    ensures PageNumber(Some("")) == 1
  {
    JsIntegerOfDigits(n);
  }

  /** `pageSize * (page - 1)`: how many matching products come before the page. */
  function Skip(page: int): int
  {
    PageSize * (page - 1)
  }

  /** `Math.ceil(count / pageSize)`. */
  function Pages(count: nat): (pages: nat)
    ensures pages * PageSize >= count
    ensures pages > 0 ==> (pages - 1) * PageSize < count
  {
    (count + PageSize - 1) / PageSize
  }

  /** Every one of the `count` matching products lies on exactly one page from 1 to `pages`. */
  lemma PagesCover(count: nat, i: nat)
    requires i < count
    ensures var page := i / PageSize + 1;
      1 <= page <= Pages(count) && Skip(page) <= i < Skip(page) + PageSize
    ensures forall page :: 1 <= page && Skip(page) <= i < Skip(page) + PageSize ==> page == i / PageSize + 1
  {
  }

  /** The sort object of the query: `{field: value}` where `value` may be undefined. */
  datatype SortField = SortField(field: string, value: Option<int>)

  /** `sort` is split on `_`: the first part is the field, the second decides the direction,
      1 for "asc" and -1 for "desc", and anything else, or no second part, leaves it undefined.
      An absent or empty `sort` gives no sort at all. */
  function SortOf(sort: Option<string>): (r: Option<SortField>)
    ensures r.None? <==> sort.None? || sort.value == ""
    ensures r.Some? ==> r.value.field == Split(sort.value, '_')[0]
    ensures r.Some? ==> r.value.value in {None, Some(1), Some(-1)}
    ensures r.Some? ==> (r.value.value == Some(1) <==> |Split(sort.value, '_')| > 1 && Split(sort.value, '_')[1] == "asc")
    ensures r.Some? ==> (r.value.value == Some(-1) <==> |Split(sort.value, '_')| > 1 && Split(sort.value, '_')[1] == "desc")
  {
    if sort.None? || sort.value == "" then None
    else
      var parts := Split(sort.value, '_');
      var direction := if |parts| > 1 then Some(parts[1]) else None;
      var value := if direction == Some("asc") then Some(1) else if direction == Some("desc") then Some(-1) else None;
      Some(SortField(parts[0], value))
  }

  /** The two spellings the shop's sort menu uses: `field_asc` and `field_desc`. */
  lemma SortOfFieldDirection(field: string, direction: string)
    requires '_' !in field && '_' !in direction
    ensures SortOf(Some(field + "_" + direction)) ==
              Some(SortField(field, if direction == "asc" then Some(1) else if direction == "desc" then Some(-1) else None))
  {
    SplitPrefix(field, direction, '_');
    SplitNoSep(direction, '_');
  }

  /** A sort without a direction names its field and leaves the value undefined. */
  lemma SortOfFieldOnly(field: string)
    requires field != "" && '_' !in field
    ensures SortOf(Some(field)) == Some(SortField(field, None))
  {
    SplitNoSep(field, '_');
  }

  /** ---- The sample product of `createProduct` ---- */

  /** The document `createProduct` builds: no rating is given, so the schema default applies. */
  function SampleDocument(user: string, now: int): RawProduct
  {
    RawProduct(Some(user), Some("sample name"), Some("sample category"), Some("sample sub-category"),
               [], ["/images/sample.jpeg"], Some("sample description"), Some(""),
               None, Some(0), Some(0), Some(0), Some(now), [], [], [])
  }

  /** The sample document is valid and is stored with price, stock, rating and review count 0. */
  lemma SampleProductStored(id: string, user: string, now: int)
    ensures CastProduct(id, SampleDocument(user, now)).Some?
    ensures var p := CastProduct(id, SampleDocument(user, now)).value;
      p.id == id && p.user == user && p.date == now && p.name == "sample name"
      && p.category == "sample category" && p.subCategory == "sample sub-category"
      && p.description == "sample description" && p.images == ["/images/sample.jpeg"] && p.tags == []
      && p.price == 0 && p.countInStock == 0 && p.rating == 0.0 && p.numReviews == 0 && p.variantId == ""
      && p.reviews == [] && p.variations == [] && p.personalizations == []
  {
  }

  /** ---- `updateProduct`: the field merge ---- */

  /** The body of an update request; `brand` is not a field of the product schema. */
  datatype ProductUpdate = ProductUpdate(
    name: Option<string>, price: Option<Pence>, description: Option<string>, images: Option<seq<string>>,
    brand: Option<string>, category: Option<string>, subCategory: Option<string>, tags: Option<seq<string>>,
    countInStock: Option<nat>, variations: Option<seq<Variation>>, personalizations: Option<seq<Personalization>>)

  predicate GivesText(a: Option<string>)
  {
    a.Some? && a.value != ""
  }

  predicate GivesNumber(a: Option<nat>)
  {
    a.Some? && a.value != 0
  }

  /** `field = new || old` for each field, as written: a falsy new value (an empty text or
      the number 0) keeps the old one; arrays, even empty ones, always replace. */
  function Merged(p: Product, u: ProductUpdate): (r: Product)
    ensures r.name == (if GivesText(u.name) then u.name.value else p.name)
    ensures r.description == (if GivesText(u.description) then u.description.value else p.description)
    ensures r.category == (if GivesText(u.category) then u.category.value else p.category)
    ensures r.subCategory == (if GivesText(u.subCategory) then u.subCategory.value else p.subCategory)
    ensures r.price == (if GivesNumber(u.price) then u.price.value else p.price)
    ensures r.countInStock == (if GivesNumber(u.countInStock) then u.countInStock.value else p.countInStock)
    ensures r.images == OrArray(u.images, p.images) && r.tags == OrArray(u.tags, p.tags)
    ensures r.variations == OrArray(u.variations, p.variations)
    ensures r.personalizations == OrArray(u.personalizations, p.personalizations)
    ensures r.(name := p.name, description := p.description, category := p.category, subCategory := p.subCategory,
               price := p.price, countInStock := p.countInStock, images := p.images, tags := p.tags,
               variations := p.variations, personalizations := p.personalizations) == p
  {
    p.(name := OrString(u.name, p.name),
       price := OrNumber(u.price, p.price) as Pence,
       description := OrString(u.description, p.description),
       images := OrArray(u.images, p.images),
       category := OrString(u.category, p.category),
       subCategory := OrString(u.subCategory, p.subCategory),
       tags := OrArray(u.tags, p.tags),
       countInStock := OrNumber(u.countInStock, p.countInStock) as nat,
       variations := OrArray(u.variations, p.variations),
       personalizations := OrArray(u.personalizations, p.personalizations))
  }

  /** The merge as evidently intended: a field the request gives is written, whatever its
      value; only an absent field keeps the old value. */
  function IntendedMerge(p: Product, u: ProductUpdate): (r: Product)
    ensures u.price.Some? ==> r.price == u.price.value
    ensures u.countInStock.Some? ==> r.countInStock == u.countInStock.value
    ensures u.name.Some? ==> r.name == u.name.value
    ensures u == ProductUpdate(None, None, None, None, None, None, None, None, None, None, None) ==> r == p
  {
    p.(name := WithDefault(u.name, p.name),
       price := WithDefault(u.price, p.price),
       description := WithDefault(u.description, p.description),
       images := WithDefault(u.images, p.images),
       category := WithDefault(u.category, p.category),
       subCategory := WithDefault(u.subCategory, p.subCategory),
       tags := WithDefault(u.tags, p.tags),
       countInStock := WithDefault(u.countInStock, p.countInStock),
       variations := WithDefault(u.variations, p.variations),
       personalizations := WithDefault(u.personalizations, p.personalizations))
  }

  /** Setting the stock or the price to 0 is silently ignored by the merge as written, and
      honoured by the intended one. */
  lemma ZeroNeverWritten(p: Product, u: ProductUpdate)
    requires u.countInStock == Some(0) && u.price == Some(0)
    ensures Merged(p, u).countInStock == p.countInStock && Merged(p, u).price == p.price
    ensures IntendedMerge(p, u).countInStock == 0 && IntendedMerge(p, u).price == 0
  {
  }

  /** The two merges agree on every request that gives no empty text and no 0. */
  lemma MergesAgreeOnTruthyFields(p: Product, u: ProductUpdate)
    requires u.name != Some("") && u.description != Some("") && u.category != Some("") && u.subCategory != Some("")
    requires u.price != Some(0) && u.countInStock != Some(0)
    ensures Merged(p, u) == IntendedMerge(p, u)
  {
  }

  /** The update an editor sends when nothing was changed: every field the product's own value. */
  function OwnValues(p: Product, brand: Option<string>): ProductUpdate
  {
    ProductUpdate(Some(p.name), Some(p.price), Some(p.description), Some(p.images), brand,
                  Some(p.category), Some(p.subCategory), Some(p.tags), Some(p.countInStock),
                  Some(p.variations), Some(p.personalizations))
  }

  /** Sending the product's own values back changes nothing, and merging twice is merging once. */
  lemma MergeIdempotent(p: Product, u: ProductUpdate, brand: Option<string>)
    ensures Merged(Merged(p, u), u) == Merged(p, u)
    ensures Merged(p, OwnValues(p, brand)) == p
  {
  }

  /** ---- `createProductReview`: the mean rating ---- */

  const AlreadyReviewedError := HttpError(400, "Product already reviewed")

  /** Whether `user` has a review on the product. */
  predicate AlreadyReviewed(p: Product, user: string)
  {
    exists i :: 0 <= i < |p.reviews| && p.reviews[i].user == user
  }

  /** The sum of the ratings, first to last. */
  function RatingSum(reviews: seq<Review>): int
  {
    if |reviews| == 0 then 0 else RatingSum(reviews[..|reviews| - 1]) + reviews[|reviews| - 1].rating
  }

  /** The arithmetic mean of the ratings. */
  function MeanRating(reviews: seq<Review>): real
    requires |reviews| > 0
  {
    RatingSum(reviews) as real / |reviews| as real
  }

  /** The mean lies between the smallest and the largest allowed rating. */
  lemma {:induction false} RatingSumBounds(reviews: seq<Review>, lo: int, hi: int)
    requires forall i :: 0 <= i < |reviews| ==> lo <= reviews[i].rating <= hi
    ensures lo * |reviews| <= RatingSum(reviews) <= hi * |reviews|
    decreases |reviews|
  {
    if |reviews| > 0 {
      var init := reviews[..|reviews| - 1];
      assert forall i :: 0 <= i < |init| ==> init[i] == reviews[i];
      RatingSumBounds(init, lo, hi);
      var last := reviews[|reviews| - 1].rating;
      assert RatingSum(reviews) == RatingSum(init) + last;
      assert lo * |reviews| == lo * |init| + lo && hi * |reviews| == hi * |init| + hi;
    }
  }

  /** With every rating from `lo` to `hi`, so is the mean; nothing checks a rating's range,
      so a rating outside 1 to 5 moves the mean outside it too. */
  lemma MeanRatingBounds(reviews: seq<Review>, lo: int, hi: int)
    requires |reviews| > 0
    requires forall i :: 0 <= i < |reviews| ==> lo <= reviews[i].rating <= hi
    ensures lo as real <= MeanRating(reviews) <= hi as real
  {
    RatingSumBounds(reviews, lo, hi);
    var n := |reviews| as real;
    var sum := RatingSum(reviews) as real;
    assert lo as real * n <= sum <= hi as real * n;
    QuotientBetween(sum, n, lo as real, hi as real);
  }

  lemma QuotientBetween(s: real, n: real, a: real, b: real)
    requires n > 0.0 && a * n <= s <= b * n
    ensures a <= s / n <= b
  {
    assert s / n - a == (s - a * n) / n;
    assert b - s / n == (b * n - s) / n;
  }

  /** A product with one more review: it is appended, the count is the new length and the
      rating is the mean of all the ratings; nothing else changes. */
  function AddReview(p: Product, review: Review): (r: Product)
    ensures r.reviews == p.reviews + [review] && r.numReviews == |r.reviews|
    ensures r.rating == MeanRating(r.reviews)
    ensures r.rating == (RatingSum(p.reviews) + review.rating) as real / (|p.reviews| + 1) as real
    ensures r.(reviews := p.reviews, numReviews := p.numReviews, rating := p.rating) == p
  {
    var reviews := p.reviews + [review];
    assert reviews[..|reviews| - 1] == p.reviews;
    p.(reviews := reviews, numReviews := |reviews|, rating := MeanRating(reviews))
  }

  /** The first review of a product sets its rating to that review's rating. */
  lemma FirstReviewSetsRating(p: Product, review: Review)
    requires p.reviews == []
    ensures AddReview(p, review).rating == review.rating as real && AddReview(p, review).numReviews == 1
  {
  }

  /** ---- `getProductCategories`: distinct names in first-occurrence order ---- */

  function CategoryNames(products: seq<Product>): (names: seq<string>)
    ensures |names| == |products| && forall i :: 0 <= i < |products| ==> names[i] == products[i].category
  {
    seq(|products|, i requires 0 <= i < |products| => products[i].category)
  }

  function SubCategoryNames(products: seq<Product>): (names: seq<string>)
    ensures |names| == |products| && forall i :: 0 <= i < |products| ==> names[i] == products[i].subCategory
  {
    seq(|products|, i requires 0 <= i < |products| => products[i].subCategory)
  }

  /** The names in order, each kept at its first occurrence only. */
  function Dedup(xs: seq<string>): (d: seq<string>)
    ensures |d| <= |xs|
  {
    if |xs| == 0 then []
    else
      var d := Dedup(xs[..|xs| - 1]);
      if xs[|xs| - 1] in d then d else d + [xs[|xs| - 1]]
  }

  predicate NoDuplicates(d: seq<string>)
  {
    forall i, j :: 0 <= i < j < |d| ==> d[i] != d[j]
  }

  /** The list names exactly the names that occur, ... */
  lemma {:induction false} DedupMembers(xs: seq<string>, x: string)
    ensures x in Dedup(xs) <==> x in xs
    decreases |xs|
  {
    if |xs| > 0 {
      var init := xs[..|xs| - 1];
      DedupMembers(init, x);
      assert xs == init + [xs[|xs| - 1]];
    }
  }

  /** ... each once, ... */
  lemma {:induction false} DedupNoDuplicates(xs: seq<string>)
    ensures NoDuplicates(Dedup(xs))
    decreases |xs|
  {
    if |xs| > 0 {
      DedupNoDuplicates(xs[..|xs| - 1]);
    }
  }

  /** ... in the order of first occurrence: the list made from the first `k` names is the
      start of the list made from all of them. */
  lemma {:induction false} DedupPrefix(xs: seq<string>, k: nat)
    requires k <= |xs|
    ensures var d := Dedup(xs[..k]);
      |d| <= |Dedup(xs)| && Dedup(xs)[..|d|] == d
    decreases |xs|
  {
    if k < |xs| {
      var init := xs[..|xs| - 1];
      assert init[..k] == xs[..k];
      DedupPrefix(init, k);
    } else {
      assert xs[..k] == xs;
    }
  }

  /** ---- The product collection ---- */

  predicate HasProduct(products: seq<Product>, id: string)
  {
    exists k :: 0 <= k < |products| && products[k].id == id
  }

  /** The stored products, each with its own id. */
  class ProductStore {
    var products: seq<Product>

    predicate Valid()
      reads this
    {
      forall i, j :: 0 <= i < j < |products| ==> products[i].id != products[j].id
    }

    constructor()
      ensures Valid() && products == []
    {
      products := [];
    }

    /** `findById`: the position of the product with `id`, if there is one. */
    method FindById(id: string) returns (k: Option<nat>)
      ensures k.None? <==> !HasProduct(products, id)
      ensures k.Some? ==> k.value < |products| && products[k.value].id == id
    {
      var i := 0;
      while i < |products|
        invariant 0 <= i <= |products|
        invariant forall j :: 0 <= j < i ==> products[j].id != id
      {
        if products[i].id == id {
          return Some(i);
        }
        i := i + 1;
      }
      return None;
    }

    /** `getProductById`: the product, or 404 "Product not found". */
    method GetProductById(id: string) returns (r: Result<Product>)
      ensures r.Ok? <==> HasProduct(products, id)
      ensures r.Ok? ==> r.value in products && r.value.id == id
      ensures r.Err? ==> r.error == ProductNotFound
    {
      var k := FindById(id);
      if k.None? {
        return Err(ProductNotFound);
      }
      return Ok(products[k.value]);
    }

    /** `deleteProduct`: the product leaves the collection and the others keep their order. */
    method DeleteProduct(id: string) returns (r: Result<string>)
      requires Valid()
      modifies this
      ensures Valid()
      ensures r.Ok? <==> HasProduct(old(products), id)
      ensures r.Ok? ==> r.value == "Product removed" && !HasProduct(products, id)
      ensures r.Ok? ==> exists k :: 0 <= k < |old(products)| && old(products)[k].id == id
                          && products == old(products)[..k] + old(products)[k + 1..]
      ensures r.Err? ==> r.error == ProductNotFound && products == old(products)
    {
      var k := FindById(id);
      if k.None? {
        return Err(ProductNotFound);
      }
      var i := k.value;
      ghost var before := products;
      products := products[..i] + products[i + 1..];
      assert forall j :: 0 <= j < |products| ==> products[j] == before[if j < i then j else j + 1];
      r := Ok("Product removed");
    }

    /** `createProduct`: the sample product, stored after the others. */
    method CreateProduct(id: string, user: string, now: int) returns (r: Product)
      requires Valid() && !HasProduct(products, id)
      modifies this
      ensures Valid()
      ensures CastProduct(id, SampleDocument(user, now)) == Some(r)
      ensures products == old(products) + [r]
    {
      SampleProductStored(id, user, now);
      r := CastProduct(id, SampleDocument(user, now)).value;
      products := products + [r];
    }

    /** `updateProduct`: the found product is replaced by its merge with the request. */
    method UpdateProduct(id: string, u: ProductUpdate) returns (r: Result<Product>)
      requires Valid()
      modifies this
      ensures Valid()
      ensures r.Ok? <==> HasProduct(old(products), id)
      ensures r.Ok? ==> exists k :: 0 <= k < |old(products)| && old(products)[k].id == id
                          && r.value == Merged(old(products)[k], u) && products == old(products)[k := r.value]
      ensures r.Err? ==> r.error == ProductNotFound && products == old(products)
    {
      var k := FindById(id);
      if k.None? {
        return Err(ProductNotFound);
      }
      r := Ok(Merged(products[k.value], u));
      products := products[k.value := r.value];
    }

    /** `createProductReview` by `user`, called `userName`: refused with 400 when the user
        already reviewed the product; otherwise the review is added, whatever its rating. */
    method CreateProductReview(id: string, user: string, userName: string, rating: int, comment: string)
      returns (r: Result<string>)
      requires Valid()
      modifies this
      ensures Valid()
      ensures r == Err(ProductNotFound) <==> !HasProduct(old(products), id)
      ensures r == Err(AlreadyReviewedError) <==>
                exists k :: 0 <= k < |old(products)| && old(products)[k].id == id && AlreadyReviewed(old(products)[k], user)
      ensures r.Err? ==> products == old(products) && r.error in {ProductNotFound, AlreadyReviewedError}
      ensures r.Ok? ==> r.value == "Review added"
                        && exists k :: 0 <= k < |old(products)| && old(products)[k].id == id
                             && !AlreadyReviewed(old(products)[k], user)
                             && products == old(products)[k := AddReview(old(products)[k], Review(userName, rating, comment, user))]
    {
      var k := FindById(id);
      if k.None? {
        return Err(ProductNotFound);
      }
      var p := products[k.value];
      var i := 0;
      while i < |p.reviews|
        invariant 0 <= i <= |p.reviews|
        invariant forall j :: 0 <= j < i ==> p.reviews[j].user != user
      {
        if p.reviews[i].user == user {
          return Err(AlreadyReviewedError);
        }
        i := i + 1;
      }
      products := products[k.value := AddReview(p, Review(userName, rating, comment, user))];
      r := Ok("Review added");
    }

    /** `getProductCategories`: each category and each sub-category once, in the order in
        which the products first name them. */
    method GetProductCategories() returns (parent: seq<string>, sub: seq<string>)
      ensures parent == Dedup(CategoryNames(products))
      ensures sub == Dedup(SubCategoryNames(products))
    {
      parent, sub := [], [];
      var k := 0;
      while k < |products|
        invariant 0 <= k <= |products|
        invariant parent == Dedup(CategoryNames(products[..k]))
        invariant sub == Dedup(SubCategoryNames(products[..k]))
      {
        var p := products[k];
        assert CategoryNames(products[..k + 1])[..k] == CategoryNames(products[..k]);
        assert SubCategoryNames(products[..k + 1])[..k] == SubCategoryNames(products[..k]);
        if p.category !in parent {
          parent := parent + [p.category];
        }
        if p.subCategory !in sub {
          sub := sub + [p.subCategory];
        }
        k := k + 1;
      }
      assert products[..k] == products;
    }
  }

  /** What the category lists promise: every product's category is listed, nothing else is,
      and no name is listed twice. */
  lemma CategoriesListed(products: seq<Product>, k: nat)
    requires k < |products|
    ensures products[k].category in Dedup(CategoryNames(products))
    ensures products[k].subCategory in Dedup(SubCategoryNames(products))
    ensures NoDuplicates(Dedup(CategoryNames(products))) && NoDuplicates(Dedup(SubCategoryNames(products)))
  {
    DedupMembers(CategoryNames(products), products[k].category);
    DedupMembers(SubCategoryNames(products), products[k].subCategory);
    DedupNoDuplicates(CategoryNames(products));
    DedupNoDuplicates(SubCategoryNames(products));
  }
}
