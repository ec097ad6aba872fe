/** Lookups and filters over the product catalog. */
module Catalog {
  import opened Documents

  /** The options of a product listing. An absent or empty category does not
      filter; `inStock` keeps only products with stock (true), only products
      without (false), or all (absent). */
  datatype ProductFilter = ProductFilter(category: Option<string>, inStock: Option<bool>)

  predicate Matches(f: ProductFilter, p: Product) {
    && (f.category.None? || f.category.value == "" || p.category == f.category.value)
    && (f.inStock == Some(true) ==> p.stock > 0)
    && (f.inStock == Some(false) ==> p.stock <= 0)
  }

  /** The index of the first product carrying `id`, if any. */
  function ProductIndex(ps: seq<Product>, id: string): (r: Option<nat>)
    ensures r.Some? ==> r.value < |ps| && ps[r.value].id == id
    ensures r.Some? ==> forall k :: 0 <= k < r.value ==> ps[k].id != id
    ensures r.None? ==> forall k :: 0 <= k < |ps| ==> ps[k].id != id
  {
    if ps == [] then None
    else if ps[0].id == id then Some(0)
    else match ProductIndex(ps[1..], id)
      case None => None
      case Some(i) => Some(i + 1)
  }

  /** Two catalogs whose records carry the same ids position by position. */
  ghost predicate SameIds(a: seq<Product>, b: seq<Product>) {
    |a| == |b| && forall k :: 0 <= k < |a| ==> a[k].id == b[k].id
  }

  /** Lookups by id only depend on the ids. */
  lemma ProductIndexSameIds(a: seq<Product>, b: seq<Product>, id: string)
    requires SameIds(a, b)
    ensures ProductIndex(a, id) == ProductIndex(b, id)
  {
  }
}
