/** The category screen (components/CategoryDetailScreen.tsx): the products of one
    category and the quick-add button, which sends a single line to the cart merge
    (App.tsx:458). */
module CategoryDetail {
  import opened Types
  import opened Seqs
  import App

  predicate InCategory(category: Category, p: Product) {
    p.category == Some(category.caption)
  }

  /** `products.filter(p => p.category === category.label)`. */
  function CategoryProducts(products: seq<Product>, category: Category): (r: seq<Product>)
    ensures forall p :: p in r <==> p in products && InCategory(category, p)
    ensures forall p :: multiset(r)[p] == if InCategory(category, p) then multiset(products)[p] else 0
    ensures IsSubseq(r, products)
  {
    FilterIsSubseq(products, (p: Product) => InCategory(category, p));
    Filter(products, (p: Product) => InCategory(category, p))
  }

  /** "No products found in this category." shows exactly when no product is in it. */
  lemma EmptyStateIff(products: seq<Product>, category: Category)
    ensures |CategoryProducts(products, category)| == 0 <==>
            forall i :: 0 <= i < |products| ==> products[i].category != Some(category.caption)
  {
    var r := CategoryProducts(products, category);
    if r != [] {
      assert r[0] in r;
    }
    if exists i :: 0 <= i < |products| && products[i].category == Some(category.caption) {
      var i :| 0 <= i < |products| && products[i].category == Some(category.caption);
      assert products[i] in r;
    }
  }

  /** `handleQuickAdd`'s line: one of the product, named after it, with no options;
      `token` is its random id. */
  function QuickAddItem(product: Product, token: string): (r: ReviewItem)
    ensures r.id == token && r.product == product && r.quantity == 1
    ensures r.ingredient == Ingredient(product.name, None) && r.selectedOptions == Some([])
  {
    ReviewItem(token, Ingredient(product.name, None), product, 1, Some([]))
  }

  /** A quick add raises the quantity of that product in the cart by one and leaves
      every other product's quantity alone. */
  lemma QuickAddCountsOne(cart: seq<ReviewItem>, product: Product, token: string, pid: string)
    ensures App.QtyOf(App.MergeAll(cart, [QuickAddItem(product, token)]), pid)
            == App.QtyOf(cart, pid) + (if product.id == pid then 1 else 0)
  {
    var item := QuickAddItem(product, token);
    App.MergeAllQty(cart, [item], pid);
    assert [item][1..] == [];
  }

  /** A quick add keeps a valid cart valid, and a line that already holds the product
      grows instead of a second line appearing. */
  lemma QuickAddKeepsCartValid(cart: seq<ReviewItem>, product: Product, token: string)
    requires App.CartValid(cart)
    ensures App.CartValid(App.MergeAll(cart, [QuickAddItem(product, token)]))
  {
    App.MergeAllKeepsValid(cart, [QuickAddItem(product, token)]);
  }
}
