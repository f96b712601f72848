/** The catalogue view (`filteredProducts` in `App.tsx`): every product, or
    only those of the selected category, in the order the backend returned
    them. */
module Catalog {
  import opened Types
  import opened Sequences

  /** The category bar's selection: the "all" sentinel or one category id. */
  datatype Selection = All | Only(categoryId: int)

  /** The filter condition of a category selection. */
  function InCategory(c: int): Product -> bool {
    (p: Product) => p.categoryId == c
  }

  function FilteredProducts(products: seq<Product>, sel: Selection): (r: seq<Product>)
    ensures sel.All? ==> r == products
    ensures sel.Only? ==> IsSubsequence(r, products)
    ensures sel.Only? ==> forall i :: 0 <= i < |r| ==> r[i].categoryId == sel.categoryId
    ensures sel.Only? ==>
      forall i :: 0 <= i < |products| && products[i].categoryId == sel.categoryId ==> products[i] in r
    ensures sel.Only? ==> |r| == CountWhere(products, InCategory(sel.categoryId))
  {
    match sel
    case All => products
    case Only(c) =>
      FilterIsSubsequence(products, InCategory(c));
      Filter(products, InCategory(c))
  }

  /** The category view is the only order-preserving selection of products
      that holds nothing but products of that category and all of them. */
  lemma CategoryViewUnique(products: seq<Product>, c: int, view: seq<Product>)
    requires IsSubsequence(view, products)
    requires forall i :: 0 <= i < |view| ==> view[i].categoryId == c
    requires |view| == CountWhere(products, InCategory(c))
    ensures view == FilteredProducts(products, Only(c))
  {
    FilterUnique(view, products, InCategory(c));
  }
}
