/** The recipe screen (components/RecipeDetailScreen.tsx): the products matched to the
    recipe's ingredient names, their total price, and "add all", which turns them into
    cart lines that the application puts up for review (App.tsx:461). */
module RecipeDetail {
  import opened Types
  import opened Text
  import opened Catalog
  import opened CatalogData
  import App

  /** `recipe.ingredients || []`. */
  function IngredientNames(recipe: Recipe): seq<string> {
    match recipe.ingredients case Some(names) => names case None => []
  }

  /** `getMatchingProducts(recipe.ingredients || [])`: one product per ingredient name;
      a recipe without ingredients matches nothing. */
  function MatchedProducts(db: seq<Product>, c: Catalogs, recipe: Recipe, roll: nat -> Draws)
    : (r: seq<Product>)
    ensures |r| == |IngredientNames(recipe)|
    ensures recipe.ingredients.None? ==> r == []
    ensures forall i :: 0 <= i < |r| ==> r[i] == App.MatchProduct(db, c, IngredientNames(recipe)[i], roll(i))
  {
    App.GetMatchingProducts(db, c, IngredientNames(recipe), roll)
  }

  /** `matchedProducts.reduce((sum, p) => sum + p.price, 0)`. */
  function TotalPrice(products: seq<Product>): real
    decreases |products|
  {
    if products == [] then 0.0 else TotalPrice(products[..|products| - 1]) + products[|products| - 1].price
  }

  /** `recipe-item-${index}-${Date.now()}`; `now` is the clock reading. */
  function RecipeItemId(i: nat, now: string): string {
    "recipe-item-" + NatToString(i) + "-" + now
  }

  /** The ingredient name of the i-th line: the recipe's i-th ingredient name, or the
      product's name when that is missing or empty (`recipe.ingredients[index] || p.name`). */
  function LineName(names: seq<string>, i: nat, p: Product): (r: string)
    ensures i < |names| && names[i] != "" ==> r == names[i]
    ensures !(i < |names| && names[i] != "") ==> r == p.name
  {
    if i < |names| && names[i] != "" then names[i] else p.name
  }

  /** `handleAddAll`'s items: one line of quantity 1 with no options per matched
      product, in order. */
  function AddAllItems(names: seq<string>, products: seq<Product>, now: string): (r: seq<ReviewItem>)
    ensures |r| == |products|
    ensures forall i :: 0 <= i < |r| ==>
              r[i].product == products[i] && r[i].quantity == 1 && r[i].selectedOptions == Some([])
              && r[i].ingredient == Ingredient(LineName(names, i, products[i]), None)
              && r[i].id == RecipeItemId(i, now)
  {
    seq(|products|, i requires 0 <= i < |products| =>
      ReviewItem(RecipeItemId(i, now), Ingredient(LineName(names, i, products[i]), None), products[i], 1, Some([])))
  }

  /** The lines "add all" produces for a recipe. */
  function HandleAddAll(db: seq<Product>, c: Catalogs, recipe: Recipe, roll: nat -> Draws, now: string)
    : (r: seq<ReviewItem>)
    ensures |r| == |IngredientNames(recipe)|
  {
    AddAllItems(IngredientNames(recipe), MatchedProducts(db, c, recipe, roll), now)
  }

  /** Lines of quantity 1 over a list of products cost exactly the products' total
      price: the price shown on the recipe is what the added lines cost. */
  lemma {:induction false} UnitLinesCostTotalPrice(items: seq<ReviewItem>, products: seq<Product>)
    requires |items| == |products|
    requires forall i :: 0 <= i < |items| ==> items[i].product == products[i] && items[i].quantity == 1
    ensures LineTotal(items) == TotalPrice(products)
    decreases |items|
  {
    if items != [] {
      var n := |items| - 1;
      UnitLinesCostTotalPrice(items[..n], products[..n]);
      assert items[n].product.price * (items[n].quantity as real) == products[n].price;
    }
  }

  lemma AddAllCostsTotalPrice(db: seq<Product>, c: Catalogs, recipe: Recipe, roll: nat -> Draws, now: string)
    ensures LineTotal(HandleAddAll(db, c, recipe, roll, now)) == TotalPrice(MatchedProducts(db, c, recipe, roll))
  {
    UnitLinesCostTotalPrice(HandleAddAll(db, c, recipe, roll, now), MatchedProducts(db, c, recipe, roll));
  }

  /** Every line is named after its recipe ingredient unless that name is empty. */
  lemma AddAllNames(db: seq<Product>, c: Catalogs, recipe: Recipe, roll: nat -> Draws, now: string, i: nat)
    requires i < |IngredientNames(recipe)|
    ensures var r := HandleAddAll(db, c, recipe, roll, now);
            var name := IngredientNames(recipe)[i];
            r[i].ingredient.name == (if name != "" then name else r[i].product.name)
  {
  }

  lemma RecipeItemIdInjective(i: nat, j: nat, now: string)
    requires RecipeItemId(i, now) == RecipeItemId(j, now)
    ensures i == j
  {
    var a, b := NatToString(i), NatToString(j);
    var s, t := RecipeItemId(i, now), RecipeItemId(j, now);
    assert forall k :: 0 <= k < |a| ==> s[12 + k] == a[k];
    assert forall k :: 0 <= k < |b| ==> t[12 + k] == b[k];
    assert s[12 + |a|] == '-' && t[12 + |b|] == '-';
    assert |a| == |b|;
    assert s[12..12 + |a|] == a && t[12..12 + |b|] == b;
    NatToStringInjective(i, j);
  }

  /** The lines added at one instant carry pairwise distinct ids. */
  lemma AddAllIdsDistinct(names: seq<string>, products: seq<Product>, now: string)
    ensures var r := AddAllItems(names, products, now);
            forall i, j :: 0 <= i < j < |r| ==> r[i].id != r[j].id
  {
    var r := AddAllItems(names, products, now);
    forall i, j | 0 <= i < j < |r| ensures r[i].id != r[j].id {
      if r[i].id == r[j].id {
        RecipeItemIdInjective(i, j, now);
      }
    }
  }
}
