/**
 * The "You May Also Like" section of the product page
 * (components/ProductDetail.tsx): up to three other products of the same
 * category, in catalog order.
 */
module Recommendations {
  import opened Catalog
  import opened Seqs

  const MaxRelated: nat := 3

  predicate IsRelated(product: Product, p: Product)
  {
    p.category == product.category && p.id != product.id
  }

  function Candidates(catalog: seq<Product>, product: Product): seq<Product>
  {
    Filter(catalog, p => IsRelated(product, p))
  }

  /** `relatedProducts`. */
  function RelatedProducts(catalog: seq<Product>, product: Product): (r: seq<Product>)
    ensures |r| <= MaxRelated
    ensures forall i :: 0 <= i < |r| ==> r[i].category == product.category && r[i].id != product.id
    ensures forall i :: 0 <= i < |r| ==> r[i] in catalog
    ensures |r| == Min(MaxRelated, |Candidates(catalog, product)|)
    ensures r == Candidates(catalog, product)[..|r|]
  {
    Take(Candidates(catalog, product), MaxRelated)
  }

  /** The section is rendered exactly when some other product shares the category. */
  lemma ShowRelatedIff(catalog: seq<Product>, product: Product)
    ensures |RelatedProducts(catalog, product)| > 0 <==>
      exists i :: 0 <= i < |catalog| && IsRelated(product, catalog[i])
  {
    var c := Candidates(catalog, product);
    var r := RelatedProducts(catalog, product);
    if exists i :: 0 <= i < |catalog| && IsRelated(product, catalog[i]) {
      var i :| 0 <= i < |catalog| && IsRelated(product, catalog[i]);
      assert catalog[i] in c;
    }
    if |r| > 0 {
      assert r[0] in catalog;
      var i :| 0 <= i < |catalog| && catalog[i] == r[0];
      assert IsRelated(product, catalog[i]);
    }
  }

  lemma RelatedKeepsCatalogOrder(catalog: seq<Product>, product: Product)
    ensures IsSubsequence(RelatedProducts(catalog, product), catalog)
  {
    FilterIsSubsequence(catalog, p => IsRelated(product, p));
    PrefixOfSubsequence(Candidates(catalog, product), catalog, |RelatedProducts(catalog, product)|);
  }
}
