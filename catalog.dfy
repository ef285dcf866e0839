/** The records the catalog API hands to both pages, and the fallbacks the
    pages apply when they render a product card. */
module Catalog {

  datatype Option<+T> = None | Some(value: T)

  /** A category as the API returns it; `image` may be missing. */
  datatype Category = Category(id: int, name: string, image: Option<string>)

  /** A product as the API returns it. `images` and `category` may be
      missing; `creationAt` is the creation date as a millisecond timestamp. */
  datatype Product = Product(
    id: int,
    title: string,
    description: string,
    price: real,
    images: Option<seq<string>>,
    category: Option<Category>,
    creationAt: int)

  /** What one product card shows once the fallbacks are applied. */
  datatype Card = Card(
    id: int,
    title: string,
    description: string,
    price: real,
    image: string,
    categoryLabel: string)

  /** The image shown when a product has no first image. */
  const Placeholder: string := "https://placehold.co/600x400"

  /** JavaScript truthiness of an optional string: `null` and `""` are falsy. */
  predicate Truthy(s: Option<string>) {
    s.Some? && s.value != ""
  }

  /** True when the product has a first image (`p.images?.[0]` is defined). */
  predicate HasImage(p: Product) {
    p.images.Some? && |p.images.value| > 0
  }

  /** `p.images?.[0] ?? placeholder`: the first image, else the placeholder. */
  function ImageSrc(p: Product): (src: string)
    ensures HasImage(p) ==> src == p.images.value[0]
    ensures !HasImage(p) ==> src == Placeholder
  {
    match p.images
    case Some(urls) => if |urls| > 0 then urls[0] else Placeholder
    case None => Placeholder
  }

  /** `p.category?.name`: the category's name, or nothing (an empty label). */
  function CategoryLabel(p: Product): (shown: string)
    ensures p.category.Some? ==> shown == p.category.value.name
    ensures p.category.None? ==> shown == ""
  {
    match p.category
    case Some(c) => c.name
    case None => ""
  }

  /** The card for one product: its own fields, with the image and
      category fallbacks applied. */
  function CardOf(p: Product): (c: Card)
    ensures c.id == p.id && c.title == p.title && c.description == p.description && c.price == p.price
    ensures HasImage(p) ==> c.image == p.images.value[0]
    ensures !HasImage(p) ==> c.image == Placeholder
    ensures p.category.Some? ==> c.categoryLabel == p.category.value.name
    ensures p.category.None? ==> c.categoryLabel == ""
  {
    Card(p.id, p.title, p.description, p.price, ImageSrc(p), CategoryLabel(p))
  }

  /** `products.map(p => <card/>)`: one card per product, in order, each with
      its image and category fallbacks applied. */
  function Cards(products: seq<Product>): (cards: seq<Card>)
    ensures |cards| == |products|
    ensures forall i :: 0 <= i < |products| ==> cards[i] == CardOf(products[i])
  {
    if products == [] then [] else [CardOf(products[0])] + Cards(products[1..])
  }

  /** A card never shows a missing image: a product whose image list is
      absent or empty gets the placeholder. */
  lemma MissingImageUsesPlaceholder(products: seq<Product>, i: int)
    requires 0 <= i < |products|
    requires !HasImage(products[i])
    ensures Cards(products)[i].image == Placeholder
  {
  }
}
