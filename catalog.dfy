/**
 * The storefront's value types (types.ts) and its fixed catalog
 * (constants.tsx). Money is in integer pence and ratings in tenths of a
 * star, so that every comparison the source makes on prices and ratings is
 * exact.
 */
module Catalog {

  /** The five product categories of the `Product.category` union type. */
  datatype Category = Smartphones | Laptops | SmartHome | Kitchen | Audio
  {
    /** The category's display name, as stored in the catalog. */
    function Name(): (n: string)
      ensures n != "All"
    {
      match this
      case Smartphones => "Smartphones"
      case Laptops => "Laptops"
      case SmartHome => "Smart Home"
      case Kitchen => "Kitchen"
      case Audio => "Audio"
    }
  }

  /** A product of the catalog. Display-only fields are not modelled. */
  datatype Product = Product(
    id: string,
    name: string,
    category: Category,
    price: int,    // pence
    rating: int,   // tenths of a star
    stock: int,
    featured: bool)

  /** A basket line: the product's fields plus a quantity. */
  datatype CartItem = CartItem(product: Product, quantity: int)
  {
    function Id(): string { product.id }
  }

  datatype OrderStatus = Processing | Shipped | Delivered

  datatype Order = Order(id: string, date: string, items: seq<CartItem>, total: int, status: OrderStatus)

  /** The pages the single-page application can show. */
  datatype ViewMode =
    | Home | Shop | ProductDetail | Cart | Checkout | Success | Compare | Wishlist
    | Warranty | HelpCentre | Delivery | Returns | OrderHistory | Privacy | Terms | Cookies

  /** Some entry of `s` has product id `id` (`s.some(p => p.id === id)`). */
  predicate HasId(s: seq<Product>, id: string)
  {
    exists i :: 0 <= i < |s| && s[i].id == id
  }

  predicate CartHasId(c: seq<CartItem>, id: string)
  {
    exists i :: 0 <= i < |c| && c[i].Id() == id
  }

  /** No two entries share an id. */
  predicate UniqueIds(s: seq<Product>)
  {
    forall i, j :: 0 <= i < j < |s| ==> s[i].id != s[j].id
  }

  predicate CartUniqueIds(c: seq<CartItem>)
  {
    forall i, j :: 0 <= i < j < |c| ==> c[i].Id() != c[j].Id()
  }

  function Ids(s: seq<Product>): (r: seq<string>)
    ensures |r| == |s| && forall i :: 0 <= i < |s| ==> r[i] == s[i].id
  {
    if s == [] then [] else [s[0].id] + Ids(s[1..])
  }

  /** The fixed catalog PRODUCTS of constants.tsx. */
  const Products: seq<Product> := [
    Product("1", "HivePhone Pro Max", Smartphones, 99900, 49, 12, true),
    Product("2", "HiveX Gaming Laptop", Laptops, 149999, 48, 5, true),
    Product("3", "HiveSound ANC Headphones", Audio, 24900, 47, 25, false),
    Product("4", "HiveSmart Kettle", Kitchen, 8999, 46, 40, false),
    Product("5", "HiveWash Pro 9000", Kitchen, 64900, 49, 8, true),
    Product("6", "HiveHome Hub", SmartHome, 12900, 45, 50, false),
    Product("7", "HiveMaster Air Fryer", Kitchen, 17999, 48, 15, false),
    Product("8", "HiveTab Ultra", Laptops, 79900, 46, 20, false)
  ]

  lemma CategoryNamesDistinct(a: Category, b: Category)
    ensures a.Name() == b.Name() <==> a == b
  {
  }

  lemma CatalogIdsUnique()
    ensures UniqueIds(Products)
  {
  }
}
