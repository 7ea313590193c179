/** The records of the product catalogue, as the product schema declares them.

    A stored record is a datatype value with every field present. A document as it
    arrives (a `Raw...` value) may lack any field; casting it to the stored shape fails
    on a missing required field and fills a missing defaulted field with its default. */
module ProductModel {
  import opened Js
  import opened Money

  /** One choice of a variation, with its surcharge and the image it shows. */
  datatype VariationOption = VariationOption(name: string, additionalPrice: Pence, linkedImage: Option<int>)

  /** A variation; `selectedOption` is an index into `options` that nothing keeps in range. */
  datatype Variation = Variation(
    name: string, isOptional: bool, isSelected: bool, selectedOption: int, options: seq<VariationOption>)

  /** A personalization: a free text the buyer writes, with a fixed surcharge. */
  datatype Personalization = Personalization(
    name: string, isOptional: bool, isSelected: bool, value: string, additionalPrice: Pence, linkedImage: Option<int>)

  /** A review; `user` is the id of its author. */
  datatype Review = Review(name: string, rating: int, comment: string, user: string)

  datatype Product = Product(
    id: string, user: string, name: string, category: string, subCategory: string,
    tags: seq<string>, images: seq<string>, description: string, variantId: string,
    rating: real, numReviews: nat, price: Pence, countInStock: nat, date: int,
    reviews: seq<Review>, variations: seq<Variation>, personalizations: seq<Personalization>)

  /** The value of a field that has a schema default: the default applies only when the field is absent. */
  function WithDefault<T>(field: Option<T>, default: T): (v: T)
    ensures field.None? ==> v == default
    ensures field.Some? ==> v == field.value
  {
    if field.Some? then field.value else default
  }

  /** Casts every element of a document array; one failing element fails the whole array. */
  function CastAll<R, T>(raws: seq<R>, cast: R -> Option<T>): (r: Option<seq<T>>)
    ensures r.Some? <==> forall i :: 0 <= i < |raws| ==> cast(raws[i]).Some?
    ensures r.Some? ==> |r.value| == |raws| && forall i :: 0 <= i < |raws| ==> Some(r.value[i]) == cast(raws[i])
  {
    if |raws| == 0 then Some([])
    else
      match (cast(raws[0]), CastAll(raws[1..], cast))
      case (Some(x), Some(xs)) =>
        assert forall i :: 1 <= i < |raws| ==> raws[i] == raws[1..][i - 1];
        Some([x] + xs)
      case _ =>
        assert forall i :: 1 <= i < |raws| ==> raws[i] == raws[1..][i - 1];
        None
  }

  datatype RawOption = RawOption(name: Option<string>, additionalPrice: Option<Pence>, linkedImage: Option<int>)

  /** An option needs its name; its surcharge defaults to 0 and its linked image may stay absent. */
  function CastOption(r: RawOption): (o: Option<VariationOption>)
    ensures o.Some? <==> r.name.Some?
    ensures o.Some? ==> o.value.name == r.name.value && o.value.linkedImage == r.linkedImage
    ensures o.Some? && r.additionalPrice.None? ==> o.value.additionalPrice == 0
    ensures o.Some? && r.additionalPrice.Some? ==> o.value.additionalPrice == r.additionalPrice.value
  {
    if r.name.None? then None
    else Some(VariationOption(r.name.value, WithDefault(r.additionalPrice, 0), r.linkedImage))
  }

  datatype RawVariation = RawVariation(
    name: Option<string>, isOptional: Option<bool>, isSelected: Option<bool>,
    selectedOption: Option<int>, options: seq<RawOption>)

  /** A variation needs all four of its scalar fields and valid options; the selected index
      is stored whatever the number of options. */
  function CastVariation(r: RawVariation): (v: Option<Variation>)
    ensures v.Some? <==> r.name.Some? && r.isOptional.Some? && r.isSelected.Some? && r.selectedOption.Some?
                         && CastAll(r.options, CastOption).Some?
    ensures v.Some? ==> v.value.name == r.name.value && v.value.isOptional == r.isOptional.value
                        && v.value.isSelected == r.isSelected.value
                        && v.value.selectedOption == r.selectedOption.value
                        && v.value.options == CastAll(r.options, CastOption).value
  {
    if r.name.Some? && r.isOptional.Some? && r.isSelected.Some? && r.selectedOption.Some? then
      match CastAll(r.options, CastOption)
      case Some(opts) => Some(Variation(r.name.value, r.isOptional.value, r.isSelected.value, r.selectedOption.value, opts))
      case None => None
    else None
  }

  datatype RawPersonalization = RawPersonalization(
    name: Option<string>, isOptional: Option<bool>, isSelected: Option<bool>,
    value: Option<string>, additionalPrice: Option<Pence>, linkedImage: Option<int>)

  /** A personalization needs its name, both flags, its text and its surcharge. */
  function CastPersonalization(r: RawPersonalization): (p: Option<Personalization>)
    ensures p.Some? <==> r.name.Some? && r.isOptional.Some? && r.isSelected.Some? && r.value.Some? && r.additionalPrice.Some?
    ensures p.Some? ==> p.value.name == r.name.value && p.value.isOptional == r.isOptional.value
                        && p.value.isSelected == r.isSelected.value && p.value.value == r.value.value
    ensures p.Some? ==> p.value.additionalPrice == r.additionalPrice.value && p.value.linkedImage == r.linkedImage
  {
    if r.name.Some? && r.isOptional.Some? && r.isSelected.Some? && r.value.Some? && r.additionalPrice.Some? then
      Some(Personalization(r.name.value, r.isOptional.value, r.isSelected.value, r.value.value, r.additionalPrice.value, r.linkedImage))
    else None
  }

  datatype RawReview = RawReview(name: Option<string>, rating: Option<int>, comment: Option<string>, user: Option<string>)

  /** A review needs all four of its fields. */
  function CastReview(r: RawReview): (v: Option<Review>)
    ensures v.Some? <==> r.name.Some? && r.rating.Some? && r.comment.Some? && r.user.Some?
    ensures v.Some? ==> v.value.name == r.name.value && v.value.comment == r.comment.value
    ensures v.Some? ==> v.value.rating == r.rating.value && v.value.user == r.user.value
  {
    if r.name.Some? && r.rating.Some? && r.comment.Some? && r.user.Some? then
      Some(Review(r.name.value, r.rating.value, r.comment.value, r.user.value))
    else None
  }

  datatype RawProduct = RawProduct(
    user: Option<string>, name: Option<string>, category: Option<string>, subCategory: Option<string>,
    tags: seq<string>, images: seq<string>, description: Option<string>, variantId: Option<string>,
    rating: Option<real>, numReviews: Option<nat>, price: Option<Pence>, countInStock: Option<nat>,
    date: Option<int>, reviews: seq<RawReview>, variations: seq<RawVariation>,
    personalizations: seq<RawPersonalization>)

  predicate HasRequiredFields(r: RawProduct)
  {
    r.user.Some? && r.name.Some? && r.category.Some? && r.subCategory.Some? && r.description.Some? && r.date.Some?
  }

  /** A product needs its owner, name, both categories, description and date, and valid
      sub-documents; `variantId` defaults to '', and rating, review count, price and stock to 0. */
  function CastProduct(id: string, r: RawProduct): (p: Option<Product>)
    ensures p.Some? <==> HasRequiredFields(r) && CastAll(r.reviews, CastReview).Some?
                         && CastAll(r.variations, CastVariation).Some?
                         && CastAll(r.personalizations, CastPersonalization).Some?
    ensures p.Some? ==> p.value.id == id && p.value.name == r.name.value && p.value.tags == r.tags && p.value.images == r.images
    ensures p.Some? ==> p.value.variantId == WithDefault(r.variantId, "") && p.value.rating == WithDefault(r.rating, 0.0)
                        && p.value.numReviews == WithDefault(r.numReviews, 0) && p.value.price == WithDefault(r.price, 0)
                        && p.value.countInStock == WithDefault(r.countInStock, 0)
    ensures p.Some? ==> p.value.user == r.user.value && p.value.category == r.category.value
                        && p.value.subCategory == r.subCategory.value && p.value.description == r.description.value
                        && p.value.date == r.date.value
    ensures p.Some? ==> p.value.reviews == CastAll(r.reviews, CastReview).value
                        && p.value.variations == CastAll(r.variations, CastVariation).value
                        && p.value.personalizations == CastAll(r.personalizations, CastPersonalization).value
  {
    if !HasRequiredFields(r) then None
    else
      match (CastAll(r.reviews, CastReview), CastAll(r.variations, CastVariation), CastAll(r.personalizations, CastPersonalization))
      case (Some(rs), Some(vs), Some(ps)) =>
        Some(Product(id, r.user.value, r.name.value, r.category.value, r.subCategory.value, r.tags, r.images,
                     r.description.value, WithDefault(r.variantId, ""), WithDefault(r.rating, 0.0),
                     WithDefault(r.numReviews, 0), WithDefault(r.price, 0), WithDefault(r.countInStock, 0),
                     r.date.value, rs, vs, ps))
      case _ => None
  }

  /** A document that gives only the required fields is stored with every default. */
  lemma ProductDefaults(id: string, r: RawProduct)
    requires HasRequiredFields(r) && r.reviews == [] && r.variations == [] && r.personalizations == []
    requires r.variantId.None? && r.rating.None? && r.numReviews.None? && r.price.None? && r.countInStock.None?
    ensures CastProduct(id, r).Some?
    ensures var p := CastProduct(id, r).value;
      p.variantId == "" && p.rating == 0.0 && p.numReviews == 0 && p.price == 0 && p.countInStock == 0
  {
  }

  /** A variation whose selected index lies outside its options is still a valid record. */
  lemma SelectedOptionUnchecked()
    ensures CastVariation(RawVariation(Some("Size"), Some(false), Some(false), Some(7), [])).Some?
  {
  }
}
