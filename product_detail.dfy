/** The product page (components/ProductDetailScreen.tsx): the fallbacks for missing
    product fields, the customisation options derived from the product name and its
    dietary types, the quantity stepper and the line the purchase button produces. */
module ProductDetail {
  import opened Types
  import opened Text

  /** The icons the options show; only their identity is kept. */
  datatype Icon = Award | Scissors | MapPin | CheckCircle | Leaf | Zap | Wheat | Calendar | Snowflake

  /** `CustomOption`, with `label` called `caption`. */
  datatype CustomOption = CustomOption(id: string, caption: string, icon: Icon)

  const MeatWords: seq<string> := ["chicken", "meat", "beef", "pork", "steak", "lamb"]
  const SeafoodWords: seq<string> := ["fish", "shrimp", "salmon", "seafood", "tuna"]

  const Premium: CustomOption := CustomOption("premium", "Premium", Award)
  const PreCut: CustomOption := CustomOption("precut", "Pre-Cut", Scissors)
  const Wild: CustomOption := CustomOption("wild", "Wild", MapPin)
  const Local: CustomOption := CustomOption("local", "Local", MapPin)

  // ---------------------------------------------------------------------------
  // Missing-field fallbacks (components/ProductDetailScreen.tsx:35-40)

  datatype Shown = Shown(
    category: string, calories: int, nutrition: Nutrition, pricePerUnit: string,
    allergens: seq<string>, dietaryType: seq<string>)

  function DefaultNutrition(): Nutrition {
    Nutrition("10g", "20g", "5g", None)
  }

  /** The fields the page shows: a missing or empty string, a missing or zero number and
      a missing object fall back to the page's defaults; a missing list becomes empty. */
  function Displayed(p: Product): (r: Shown)
    ensures r.category == if p.category.Some? && p.category.value != "" then p.category.value else "Pantry"
    ensures r.calories == if p.calories.Some? && p.calories.value != 0 then p.calories.value else 150
    ensures r.nutrition == if p.nutrition.Some? then p.nutrition.value else DefaultNutrition()
    ensures r.pricePerUnit == if p.pricePerUnit.Some? && p.pricePerUnit.value != "" then p.pricePerUnit.value
                              else "$1.20/100g"
    ensures r.allergens == if p.allergens.Some? then p.allergens.value else []
    ensures r.dietaryType == if p.dietaryType.Some? then p.dietaryType.value else []
  {
    Shown(
      match p.category case Some(c) => (if c != "" then c else "Pantry") case None => "Pantry",
      match p.calories case Some(k) => (if k != 0 then k else 150) case None => 150,
      match p.nutrition case Some(n) => n case None => DefaultNutrition(),
      match p.pricePerUnit case Some(u) => (if u != "" then u else "$1.20/100g") case None => "$1.20/100g",
      match p.allergens case Some(a) => a case None => [],
      match p.dietaryType case Some(d) => d case None => [])
  }

  /** A product with every field present and non-empty is shown as it is. */
  lemma DisplayedKeepsPresentFields(p: Product)
    requires p.category.Some? && p.category.value != "" && p.calories.Some? && p.calories.value != 0
    requires p.nutrition.Some? && p.pricePerUnit.Some? && p.pricePerUnit.value != ""
    requires p.allergens.Some? && p.dietaryType.Some?
    ensures Displayed(p) == Shown(p.category.value, p.calories.value, p.nutrition.value,
                                  p.pricePerUnit.value, p.allergens.value, p.dietaryType.value)
  {
  }

  // ---------------------------------------------------------------------------
  // Options (components/ProductDetailScreen.tsx:43-73)

  /** The options derived from the name: meat names offer Premium unless the product
      is already Organic and Pre-Cut unless it is Halal; other seafood names offer Wild
      unless the product is Fresh; any other name offers Local. */
  function BaseOptions(lowerName: string, dietaryTypes: seq<string>): (r: seq<CustomOption>)
    ensures ContainsAny(lowerName, MeatWords) ==>
              (Premium in r <==> "Organic" !in dietaryTypes) && (PreCut in r <==> "Halal" !in dietaryTypes)
              && Wild !in r && Local !in r
    ensures ContainsAny(lowerName, MeatWords) ==>
              r == (if "Organic" !in dietaryTypes then [Premium] else [])
                   + (if "Halal" !in dietaryTypes then [PreCut] else [])
    ensures !ContainsAny(lowerName, MeatWords) && ContainsAny(lowerName, SeafoodWords) ==>
              r == if "Fresh" in dietaryTypes then [] else [Wild]
    ensures !ContainsAny(lowerName, MeatWords) && !ContainsAny(lowerName, SeafoodWords) ==> r == [Local]
    ensures |r| <= 2
  {
    if ContainsAny(lowerName, MeatWords) then
      (if "Organic" !in dietaryTypes then [Premium] else [])
      + (if "Halal" !in dietaryTypes then [PreCut] else [])
    else if ContainsAny(lowerName, SeafoodWords) then
      (if "Fresh" !in dietaryTypes then [Wild] else [])
    else [Local]
  }

  function IconFor(dietaryType: string): Icon {
    if dietaryType == "Frozen" then Snowflake
    else if dietaryType == "Fresh" then Calendar
    else if dietaryType == "Halal" then CheckCircle
    else if dietaryType == "Gluten-Free" then Wheat
    else if dietaryType == "Keto" then Zap
    else if dietaryType == "Vegan" || dietaryType == "Organic" then Leaf
    else CheckCircle
  }

  /** The option of one dietary type: its lower-cased name as id, the type as caption. */
  function DietaryOption(dietaryType: string): (o: CustomOption)
    ensures o.id == Lower(dietaryType) && o.caption == dietaryType
  {
    CustomOption(Lower(dietaryType), dietaryType, IconFor(dietaryType))
  }

  /** The options `getOptionsForProduct` offers: the base options first, then one
      option per dietary type, in the order of the list. */
  function OptionsFor(name: string, dietaryTypes: seq<string>): (r: seq<CustomOption>)
    ensures var base := BaseOptions(Lower(name), dietaryTypes);
            |r| == |base| + |dietaryTypes| && r[..|base|] == base
            && forall i :: 0 <= i < |dietaryTypes| ==> r[|base| + i] == DietaryOption(dietaryTypes[i])
  {
    BaseOptions(Lower(name), dietaryTypes)
    + seq(|dietaryTypes|, i requires 0 <= i < |dietaryTypes| => DietaryOption(dietaryTypes[i]))
  }

  /** `getOptionsForProduct`: the base options are pushed first, then one option per
      dietary type in the order of the list. */
  method GetOptionsForProduct(name: string, dietaryTypes: seq<string>) returns (options: seq<CustomOption>)
    ensures options == OptionsFor(name, dietaryTypes)
    ensures var base := BaseOptions(Lower(name), dietaryTypes);
            |options| == |base| + |dietaryTypes| && options[..|base|] == base
            && forall i :: 0 <= i < |dietaryTypes| ==> options[|base| + i] == DietaryOption(dietaryTypes[i])
  {
    var base := PushBaseOptions(Lower(name), dietaryTypes);
    options := PushDietaryOptions(base, dietaryTypes);
    PushedOptions(name, dietaryTypes, base, options);
  }

  /** The base options followed by the dietary pushes are `OptionsFor`. */
  lemma PushedOptions(name: string, dietaryTypes: seq<string>, base: seq<CustomOption>, options: seq<CustomOption>)
    requires base == BaseOptions(Lower(name), dietaryTypes)
    requires |options| == |base| + |dietaryTypes| && options[..|base|] == base
    requires forall i :: 0 <= i < |dietaryTypes| ==> options[|base| + i] == DietaryOption(dietaryTypes[i])
    ensures options == OptionsFor(name, dietaryTypes)
    ensures var base := BaseOptions(Lower(name), dietaryTypes);
            |options| == |base| + |dietaryTypes| && options[..|base|] == base
            && forall i :: 0 <= i < |dietaryTypes| ==> options[|base| + i] == DietaryOption(dietaryTypes[i])
  {
    SameOptions(options, OptionsFor(name, dietaryTypes), base, dietaryTypes);
  }

  /** Two option lists that both start with `base` and continue with one option per
      dietary type are equal. */
  lemma SameOptions(a: seq<CustomOption>, b: seq<CustomOption>, base: seq<CustomOption>, dietaryTypes: seq<string>)
    requires |a| == |base| + |dietaryTypes| && a[..|base|] == base
    requires forall i :: 0 <= i < |dietaryTypes| ==> a[|base| + i] == DietaryOption(dietaryTypes[i])
    requires |b| == |base| + |dietaryTypes| && b[..|base|] == base
    requires forall i :: 0 <= i < |dietaryTypes| ==> b[|base| + i] == DietaryOption(dietaryTypes[i])
    ensures a == b
  {
    forall k | 0 <= k < |a|
      ensures a[k] == b[k]
    {
      if k < |base| {
        assert a[k] == a[..|base|][k] && b[k] == b[..|base|][k];
      } else {
        var j := k - |base|;
        assert 0 <= j < |dietaryTypes| && |base| + j == k;
        assert a[|base| + j] == DietaryOption(dietaryTypes[j]) == b[|base| + j];
      }
    }
  }

  /** The `if`/`else if` chain of `getOptionsForProduct` that pushes the options derived
      from the name. */
  method PushBaseOptions(lowerName: string, dietaryTypes: seq<string>) returns (options: seq<CustomOption>)
    ensures options == BaseOptions(lowerName, dietaryTypes)
  {
    options := [];
    if ContainsAny(lowerName, MeatWords) {
      if "Organic" !in dietaryTypes {
        options := options + [Premium];
      }
      if "Halal" !in dietaryTypes {
        options := options + [PreCut];
      }
    } else if ContainsAny(lowerName, SeafoodWords) {
      if "Fresh" !in dietaryTypes {
        options := options + [Wild];
      }
    } else {
      options := options + [Local];
    }
  }

  /** The `forEach` of `getOptionsForProduct`: one option per dietary type is pushed,
      its icon picked by the chain of comparisons. */
  method PushDietaryOptions(base: seq<CustomOption>, dietaryTypes: seq<string>) returns (options: seq<CustomOption>)
    ensures |options| == |base| + |dietaryTypes| && options[..|base|] == base
    ensures forall i :: 0 <= i < |dietaryTypes| ==> options[|base| + i] == DietaryOption(dietaryTypes[i])
  {
    options := base;
    var i := 0;
    while i < |dietaryTypes|
      invariant 0 <= i <= |dietaryTypes|
      invariant |options| == |base| + i && options[..|base|] == base
      invariant forall j :: 0 <= j < i ==> options[|base| + j] == DietaryOption(dietaryTypes[j])
    {
      var t := dietaryTypes[i];
      var icon := CheckCircle;
      if t == "Organic" { icon := Leaf; }
      if t == "Vegan" { icon := Leaf; }
      if t == "Keto" { icon := Zap; }
      if t == "Gluten-Free" { icon := Wheat; }
      if t == "Halal" { icon := CheckCircle; }
      if t == "Fresh" { icon := Calendar; }
      if t == "Frozen" { icon := Snowflake; }
      assert icon == IconFor(t);
      options := options + [CustomOption(Lower(t), t, icon)];
      assert options[..|base|] == base;
      i := i + 1;
    }
  }

  function OptionIds(options: seq<CustomOption>): (r: seq<string>)
    ensures |r| == |options|
    ensures forall i :: 0 <= i < |options| ==> r[i] == options[i].id
  {
    seq(|options|, i requires 0 <= i < |options| => options[i].id)
  }

  // ---------------------------------------------------------------------------
  // The page state

  /** `initialItem?.quantity || 1`: a missing or zero quantity starts at one. */
  function InitialQuantity(initialItem: Option<ReviewItem>): (q: int)
    ensures initialItem.Some? && initialItem.value.quantity != 0 ==> q == initialItem.value.quantity
    ensures initialItem.None? || initialItem.value.quantity == 0 ==> q == 1
  {
    if initialItem.Some? && initialItem.value.quantity != 0 then initialItem.value.quantity else 1
  }

  /** `initialItem?.selectedOptions || options.map(o => o.id)`: an editing line keeps
      its options (even an empty list); otherwise every option is selected. */
  function SelectedOptions(initialItem: Option<ReviewItem>, options: seq<CustomOption>): (r: seq<string>)
    ensures initialItem.Some? && initialItem.value.selectedOptions.Some? ==>
              r == initialItem.value.selectedOptions.value
    ensures !(initialItem.Some? && initialItem.value.selectedOptions.Some?) ==> r == OptionIds(options)
  {
    match initialItem
    case Some(item) => (match item.selectedOptions case Some(s) => s case None => OptionIds(options))
    case None => OptionIds(options)
  }

  class ProductPage {
    const product: Product
    const initialItem: Option<ReviewItem>
    var quantity: int

    constructor (p: Product, item: Option<ReviewItem>)
      ensures product == p && initialItem == item && quantity == InitialQuantity(item)
    {
      product := p;
      initialItem := item;
      quantity := InitialQuantity(item);
    }

    /** `updateQuantity`: `Math.max(1, prev + delta)`. */
    method UpdateQuantity(delta: int)
      modifies this`quantity
      ensures quantity >= 1
      ensures quantity == old(quantity) + delta || (quantity == 1 && old(quantity) + delta < 1)
    {
      quantity := if quantity + delta > 1 then quantity + delta else 1;
    }

    /** `handlePurchase`: the line handed to the parent. An editing line keeps its id;
        otherwise (or for an empty id) `token` is the generated id. */
    method HandlePurchase(token: string) returns (item: ReviewItem)
      ensures item.id == if initialItem.Some? && initialItem.value.id != "" then initialItem.value.id else token
      ensures item.ingredient == Ingredient(product.name, None)
      ensures item.product == product && item.quantity == quantity
      ensures initialItem.Some? && initialItem.value.selectedOptions.Some? ==>
                item.selectedOptions == initialItem.value.selectedOptions
      ensures !(initialItem.Some? && initialItem.value.selectedOptions.Some?) ==>
                item.selectedOptions == Some(OptionIds(OptionsFor(product.name, Displayed(product).dietaryType)))
    {
      var options := GetOptionsForProduct(product.name, Displayed(product).dietaryType);
      var selected := SelectedOptions(initialItem, options);
      var id := if initialItem.Some? && initialItem.value.id != "" then initialItem.value.id else token;
      item := ReviewItem(id, Ingredient(product.name, None), product, quantity, Some(selected));
    }
  }
}
