/** The ingredient-to-product resolver `generateMockProduct` (constants.ts:222-455):
    the six catalogs are scanned in a fixed order for the first entry whose name
    and the query contain one another; a hit is copied into a product record of
    that catalog's category, and a miss produces a generated product whose category
    is derived from keywords in the query. Every `Math.random()` the source calls is
    an input, gathered in a `Draws` record. */
module Catalog {
  import opened Types
  import opened Text
  import opened CatalogData

  /** A value of `Math.random()`. */
  type Draw = r: real | 0.0 <= r < 1.0 witness 0.0

  /** The random inputs of one call. `first` is drawn before anything else; `bestPrice`
      is the draw compared against 0.8 on a vegetable hit; the allergen and dietary
      draws belong to the fallback. Values the source generates without any logic
      around them (the id token, calories, the random nutrition strings, the fallback
      price and its per-100g label) are taken as they are. */
  datatype Draws = Draws(
    first: Draw,
    bestPrice: Draw,
    allergenChance: Draw,
    allergenPick: Draw,
    veganChance: Draw,
    ketoChance: Draw,
    token: string,
    calories: int,
    nutrition: DrawnNutrition,
    price: real,
    pricePerUnit: string)

  /** The random nutrition strings; every branch of the resolver sets all four. */
  datatype DrawnNutrition = DrawnNutrition(protein: string, carbs: string, fat: string, fiber: string)

  function AsNutrition(n: DrawnNutrition): Nutrition {
    Nutrition(n.protein, n.carbs, n.fat, Some(n.fiber))
  }

  /** A catalog together with its category label and the words its `find` predicate
      strips, in order, from an entry's lower-cased name before the reverse check. */
  datatype Section = Section(category: string, stopWords: seq<string>, items: seq<CatalogItem>)

  /** The catalogs in the order the resolver consults them. */
  function Sections(c: Catalogs): (r: seq<Section>)
    ensures |r| == 6
    ensures r[0].items == c.vegetables && r[1].items == c.meat && r[2].items == c.fruits
    ensures r[3].items == c.seafood && r[4].items == c.bakery && r[5].items == c.dairy
  {
    [ Section("Vegetables", ["coles"], c.vegetables),
      Section("Meat", ["beef"], c.meat),
      Section("Fruits", ["apple"], c.fruits),
      Section("Seafood", ["salmon", "prawns"], c.seafood),
      Section("Bakery", ["bread", "cake"], c.bakery),
      Section("Dairy", ["milk", "cheese", "yoghurt"], c.dairy) ]
  }

  /** The `find` predicate: the entry's lower-cased name contains the lower-cased query,
      or the query contains that name with the stop words removed and then trimmed. */
  predicate EntryMatches(lowerName: string, stopWords: seq<string>, item: CatalogItem) {
    var itemName := Lower(item.name);
    Contains(itemName, lowerName) || Contains(lowerName, Trim(RemoveEach(itemName, stopWords)))
  }

  /** `Array.prototype.find` over one catalog, from position `start` on: the index of
      the first entry satisfying `matches`. */
  function FindFrom(items: seq<CatalogItem>, matches: CatalogItem -> bool, start: nat) : (r: Option<nat>)
    requires start <= |items|
    ensures r.Some? ==> start <= r.value < |items| && matches(items[r.value])
    ensures r.Some? ==> forall j :: start <= j < r.value ==> !matches(items[j])
    ensures r.None? <==> forall j :: start <= j < |items| ==> !matches(items[j])
    decreases |items| - start
  {
    if start == |items| then None
    else if matches(items[start]) then Some(start)
    else FindFrom(items, matches, start + 1)
  }

  /** The `find` of one catalog with its own predicate. */
  function Find(lowerName: string, stopWords: seq<string>, items: seq<CatalogItem>): (r: Option<nat>)
    ensures r.Some? ==> r.value < |items| && EntryMatches(lowerName, stopWords, items[r.value])
    ensures r.Some? ==> forall j :: 0 <= j < r.value ==> !EntryMatches(lowerName, stopWords, items[j])
    ensures r.None? <==> forall j :: 0 <= j < |items| ==> !EntryMatches(lowerName, stopWords, items[j])
  {
    FindFrom(items, (item: CatalogItem) => EntryMatches(lowerName, stopWords, item), 0)
  }

  /** Entry `i` of catalog `k` is the one the scan stops at: it matches, no earlier entry
      of that catalog matches, and no entry of an earlier catalog matches. */
  predicate IsFirstHit(lowerName: string, secs: seq<Section>, k: nat, i: nat) {
    && k < |secs| && i < |secs[k].items|
    && EntryMatches(lowerName, secs[k].stopWords, secs[k].items[i])
    && (forall j :: 0 <= j < i ==> !EntryMatches(lowerName, secs[k].stopWords, secs[k].items[j]))
    && (forall m, j :: 0 <= m < k && 0 <= j < |secs[m].items| ==>
          !EntryMatches(lowerName, secs[m].stopWords, secs[m].items[j]))
  }

  /** No entry of any catalog matches. */
  predicate NoHit(lowerName: string, secs: seq<Section>) {
    forall m, j :: 0 <= m < |secs| && 0 <= j < |secs[m].items| ==>
      !EntryMatches(lowerName, secs[m].stopWords, secs[m].items[j])
  }

  /** The chain of `find`s and early returns: the catalog and entry of the first hit. */
  function Scan(lowerName: string, secs: seq<Section>): (r: Option<(nat, nat)>)
    ensures r.Some? ==> IsFirstHit(lowerName, secs, r.value.0, r.value.1)
    ensures r.None? <==> NoHit(lowerName, secs)
    decreases |secs|
  {
    if secs == [] then None
    else
      match Find(lowerName, secs[0].stopWords, secs[0].items)
      case Some(i) => Some((0, i))
      case None =>
        var rest := Scan(lowerName, secs[1..]);
        assert forall m :: 0 < m < |secs| ==> secs[1..][m - 1] == secs[m];
        match rest
        case None => None
        case Some(hit) => Some((hit.0 + 1, hit.1))
  }

  function BrandOf(item: CatalogItem): string {
    match item.brand
    case Some(b) => b
    case None => ""
  }

  /** The product built from entry `item` of catalog `k` (constants.ts:232-405). */
  function FromHit(k: nat, item: CatalogItem, d: Draws): Product
    requires k < 6
  {
    var base := Product(
      "", item.name, "", item.price, item.imageUrl, ExactMatch, item.size,
      None, Some(d.calories), Some(AsNutrition(d.nutrition)), Some("per " + item.size),
      Some([]), None, None, None);
    var n := AsNutrition(d.nutrition);
    if k == 0 then
      base.(id := "coles-" + d.token, brand := "Fresh Market",
            matchType := if d.bestPrice > 0.8 then BestPrice else ExactMatch,
            category := Some("Vegetables"),
            dietaryType := Some(["Vegan"] + if Contains(Lower(item.name), "organic") then ["Organic"] else []))
    else if k == 1 then
      base.(id := "coles-meat-" + d.token, brand := "Coles Graze", category := Some("Meat"),
            calories := Some(250), nutrition := Some(Nutrition("25g", "0g", "18g", Some("0g"))),
            dietaryType := Some(["Gluten-Free"]))
    else if k == 2 then
      base.(id := "coles-fruit-" + d.token, brand := "Fresh Orchard", category := Some("Fruits"),
            nutrition := Some(n.(fat := "0.2g")),
            dietaryType := Some(["Vegan", "Organic"]))
    else if k == 3 then
      base.(id := "coles-seafood-" + d.token, brand := "Ocean Catch", category := Some("Seafood"),
            nutrition := Some(n.(carbs := "0g", fiber := Some("0g"))),
            allergens := Some(["Seafood", "Shellfish"]),
            dietaryType := Some(["Gluten-Free", "Pescatarian"]))
    else if k == 4 then
      base.(id := "coles-bakery-" + d.token, brand := BrandOf(item), category := Some("Bakery"),
            allergens := Some(["Gluten", "Eggs", "Milk"]),
            dietaryType := Some(["Vegetarian"]))
    else
      base.(id := "coles-dairy-" + d.token, brand := BrandOf(item), category := Some("Dairy"),
            nutrition := Some(n.(fiber := Some("0g"))),
            allergens := Some(["Milk"]),
            dietaryType := Some(["Vegetarian", "Gluten-Free"]))
  }

  /** The keyword groups of the fallback category, in the order they are tested. */
  function KeywordGroups(): seq<(string, seq<string>)> {
    [ ("Meat", ["chicken", "meat", "beef", "pork", "steak", "lamb"]),
      ("Seafood", ["fish", "shrimp", "salmon", "seafood"]),
      ("Fruits", ["apple", "banana", "orange", "lemon", "fruit", "berry", "grape", "mango", "pear"]),
      ("Vegetables", ["carrot", "lettuce", "onion", "vegetable", "potato", "tomato"]),
      ("Dairy", ["milk", "cheese", "yogurt", "butter", "cream"]),
      ("Bakery", ["bread", "cake", "muffin", "roll", "pie", "biscuit"]) ]
  }

  /** The index of the first group with a keyword occurring in `lowerName`. */
  function FirstGroup(lowerName: string, groups: seq<(string, seq<string>)>): (r: Option<nat>)
    ensures r.Some? ==> r.value < |groups| && ContainsAny(lowerName, groups[r.value].1)
    ensures r.Some? ==> forall j :: 0 <= j < r.value ==> !ContainsAny(lowerName, groups[j].1)
    ensures r.None? <==> forall j :: 0 <= j < |groups| ==> !ContainsAny(lowerName, groups[j].1)
    decreases |groups|
  {
    if groups == [] then None
    else if ContainsAny(lowerName, groups[0].1) then Some(0)
    else
      match FirstGroup(lowerName, groups[1..])
      case None => None
      case Some(i) => Some(i + 1)
  }

  /** The label of the first group with a keyword occurring in `lowerName`, or `otherwise`. */
  function GroupLabel(lowerName: string, groups: seq<(string, seq<string>)>, otherwise: string): string {
    match FirstGroup(lowerName, groups)
    case Some(g) => groups[g].0
    case None => otherwise
  }

  /** The fallback category (constants.ts:425-431). */
  function FallbackCategory(lowerName: string): string {
    GroupLabel(lowerName, KeywordGroups(), "Pantry")
  }

  /** The photo shown for a category without a picture of its own. */
  function DefaultPhoto(): string {
    "1504674900247-0877df9cc836"
  }

  function DefaultPlaceholder(): string {
    Unsplash(DefaultPhoto())
  }

  /** The six catalog categories, which have a picture each. */
  predicate HasOwnPicture(category: string) {
    category == "Vegetables" || category == "Meat" || category == "Seafood"
    || category == "Fruits" || category == "Bakery" || category == "Dairy"
  }

  /** The Unsplash photo of `getCategoryPlaceholder`: every catalog category has its own,
      every other category falls back to the generic one. */
  function PhotoId(category: string): (id: string)
    ensures id == DefaultPhoto() <==> !HasOwnPicture(category)
  {
    match category
    case "Vegetables" => "1566385101042-1a0aa0c1268c"
    case "Meat" => "1607623814075-e51df1bdc82f"
    case "Seafood" => "1615141982883-c7ad0e69fd62"
    case "Fruits" => "1619566636858-adf3ef46400b"
    case "Bakery" => "1509440159596-0249088772ff"
    case "Dairy" => "1628088062854-d1870b4553da"
    case _ => DefaultPhoto()
  }

  /** `getCategoryPlaceholder`. */
  function CategoryPlaceholder(category: string): string {
    Unsplash(PhotoId(category))
  }

  /** Two URLs with the same prefix and suffix are equal only when their middles are. */
  lemma MiddleDetermined(prefix: string, a: string, b: string, suffix: string)
    requires prefix + a + suffix == prefix + b + suffix
    ensures a == b
  {
    var u, v := prefix + a + suffix, prefix + b + suffix;
    assert |a| == |b|;
    assert a == u[|prefix|..|prefix| + |a|];
    assert b == v[|prefix|..|prefix| + |b|];
  }

  /** The generic image is returned exactly for categories outside the six catalog
      categories. */
  lemma CategoryPlaceholderDefault(category: string)
    ensures CategoryPlaceholder(category) == DefaultPlaceholder() <==> !HasOwnPicture(category)
  {
    if CategoryPlaceholder(category) == DefaultPlaceholder() {
      MiddleDetermined("https://images.unsplash.com/photo-", PhotoId(category), DefaultPhoto(),
                       "?auto=format&fit=crop&w=400");
    }
  }

  /** The fallback match type from the first draw (constants.ts:408-413). */
  function FallbackMatchType(r: Draw): MatchType {
    if r < 0.4 then ExactMatch
    else if r < 0.6 then SimilarItem
    else if r < 0.8 then BestPrice
    else PremiumProduct
  }

  function PossibleAllergens(): seq<string> {
    ["Nuts", "Dairy", "Gluten", "Soy"]
  }

  /** `Math.floor(pick * 4)` as an index into the four possible allergens. */
  function AllergenIndex(pick: Draw): (r: nat)
    ensures r < |PossibleAllergens()|
    ensures r as real <= pick * 4.0 < r as real + 1.0
  {
    (pick * 4.0).Floor
  }

  /** The generated product of a query no catalog entry matches (constants.ts:407-454). */
  /** One allergen when the allergen draw exceeds 0.8, picked by a further draw. */
  function FallbackAllergens(d: Draws): (r: seq<string>)
    ensures |r| <= 1 && (r != [] <==> d.allergenChance > 0.8)
    ensures forall a :: a in r ==> a in PossibleAllergens()
  {
    if d.allergenChance > 0.8 then [PossibleAllergens()[AllergenIndex(d.allergenPick)]] else []
  }

  /** Organic and Halal always, then Vegan above 0.5 and Keto above 0.7 on their draws. */
  function FallbackDietary(d: Draws): (r: seq<string>)
    ensures 2 <= |r| <= 4 && r[..2] == ["Organic", "Halal"]
    ensures "Vegan" in r <==> d.veganChance > 0.5
    ensures "Keto" in r <==> d.ketoChance > 0.7
  {
    ["Organic", "Halal"]
      + (if d.veganChance > 0.5 then ["Vegan"] else [])
      + (if d.ketoChance > 0.7 then ["Keto"] else [])
  }

  /** The four match types partition the range of the first draw at 0.4, 0.6 and 0.8. */
  lemma FallbackMatchTypeRanges(r: Draw)
    ensures FallbackMatchType(r) == ExactMatch <==> r < 0.4
    ensures FallbackMatchType(r) == SimilarItem <==> 0.4 <= r < 0.6
    ensures FallbackMatchType(r) == BestPrice <==> 0.6 <= r < 0.8
    ensures FallbackMatchType(r) == PremiumProduct <==> 0.8 <= r
  {
  }

  function Fallback(ingredientName: string, d: Draws): Product {
    var mt := FallbackMatchType(d.first);
    var category := FallbackCategory(Lower(ingredientName));
    var allergens := FallbackAllergens(d);
    var dietary := FallbackDietary(d);
    Product(
      d.token,
      if mt == ExactMatch then "Organic " + ingredientName else ingredientName + " Alternative",
      "MarketChoice", d.price, CategoryPlaceholder(category), mt, "500g",
      Some(category), Some(d.calories), Some(AsNutrition(d.nutrition)), Some(d.pricePerUnit),
      Some(allergens), Some(dietary), None, None)
  }

  /** `generateMockProduct` over the given catalogs. */
  function Resolve(c: Catalogs, ingredientName: string, d: Draws): Product {
    var secs := Sections(c);
    match Scan(Lower(ingredientName), secs)
    case Some(hit) => FromHit(hit.0, secs[hit.0].items[hit.1], d)
    case None => Fallback(ingredientName, d)
  }

  // ---------------------------------------------------------------------------
  // Properties of the resolver

  /** The scan order: the result is built from the first hit of the earliest catalog
      with any hit, and it is the fallback exactly when no catalog has a hit. */
  lemma ResolveCases(c: Catalogs, ingredientName: string, d: Draws)
    ensures var q, secs := Lower(ingredientName), Sections(c);
      || (exists k: nat, i: nat :: IsFirstHit(q, secs, k, i)
            && Resolve(c, ingredientName, d) == FromHit(k, secs[k].items[i], d))
      || (NoHit(q, secs) && Resolve(c, ingredientName, d) == Fallback(ingredientName, d))
  {
    var q, secs := Lower(ingredientName), Sections(c);
    var scan := Scan(q, secs);
    if scan.Some? {
      var k, i := scan.value.0, scan.value.1;
      assert IsFirstHit(q, secs, k, i);
      assert Resolve(c, ingredientName, d) == FromHit(k, secs[k].items[i], d);
    } else {
      assert NoHit(q, secs);
      assert Resolve(c, ingredientName, d) == Fallback(ingredientName, d);
    }
  }

  /** The first hit is unique: two positions that both satisfy IsFirstHit coincide. */
  lemma FirstHitUnique(q: string, secs: seq<Section>, k1: nat, i1: nat, k2: nat, i2: nat)
    requires IsFirstHit(q, secs, k1, i1) && IsFirstHit(q, secs, k2, i2)
    ensures k1 == k2 && i1 == i2
  {
  }

  /** Resolution at a known first hit. */
  lemma ResolveAtHit(c: Catalogs, ingredientName: string, d: Draws, k: nat, i: nat)
    requires IsFirstHit(Lower(ingredientName), Sections(c), k, i)
    ensures Resolve(c, ingredientName, d) == FromHit(k, Sections(c)[k].items[i], d)
  {
    var q, secs := Lower(ingredientName), Sections(c);
    var hit := Scan(q, secs);
    FirstHitUnique(q, secs, k, i, hit.value.0, hit.value.1);
  }

  /** What a catalog hit copies and sets (constants.ts:232-405): name, price and image
      come from the entry, the weight is its size, the unit price reads "per <size>",
      the category is the catalog's, and only a vegetable hit can be 'Best Price'. */
  lemma CatalogHit(c: Catalogs, ingredientName: string, d: Draws, k: nat, i: nat)
    requires IsFirstHit(Lower(ingredientName), Sections(c), k, i)
    ensures var p, item := Resolve(c, ingredientName, d), Sections(c)[k].items[i];
      && p.name == item.name && p.price == item.price && p.imageUrl == item.imageUrl
      && p.weight == item.size && p.pricePerUnit == Some("per " + item.size)
      && p.category == Some(Sections(c)[k].category)
      && (p.matchType == BestPrice <==> k == 0 && d.bestPrice > 0.8)
      && (p.matchType == ExactMatch <==> !(k == 0 && d.bestPrice > 0.8))
  {
    var secs := Sections(c);
    var item := secs[k].items[i];
    ResolveAtHit(c, ingredientName, d, k, i);
    SectionCategory(c, k);
    FromHitShape(k, item, d, secs[k].category);
  }

  lemma SectionCategory(c: Catalogs, k: nat)
    requires k < 6
    ensures Sections(c)[k].category == ["Vegetables", "Meat", "Fruits", "Seafood", "Bakery", "Dairy"][k]
  {
  }

  /** The record built from a catalog entry, whatever the query. */
  lemma FromHitShape(k: nat, item: CatalogItem, d: Draws, category: string)
    requires k < 6 && category == ["Vegetables", "Meat", "Fruits", "Seafood", "Bakery", "Dairy"][k]
    ensures var p := FromHit(k, item, d);
      && p.name == item.name && p.price == item.price && p.imageUrl == item.imageUrl
      && p.weight == item.size && p.pricePerUnit == Some("per " + item.size)
      && p.category == Some(category)
      && (p.matchType == BestPrice <==> k == 0 && d.bestPrice > 0.8)
      && (p.matchType == ExactMatch <==> !(k == 0 && d.bestPrice > 0.8))
  {
  }

  /** The catalog fields of a hit do not depend on any random draw. */
  lemma HitIgnoresDraws(c: Catalogs, ingredientName: string, d1: Draws, d2: Draws)
    requires !NoHit(Lower(ingredientName), Sections(c))
    ensures var p1, p2 := Resolve(c, ingredientName, d1), Resolve(c, ingredientName, d2);
      p1.name == p2.name && p1.price == p2.price && p1.imageUrl == p2.imageUrl
      && p1.weight == p2.weight && p1.category == p2.category
  {
    var hit := Scan(Lower(ingredientName), Sections(c)).value;
    CatalogHit(c, ingredientName, d1, hit.0, hit.1);
    CatalogHit(c, ingredientName, d2, hit.0, hit.1);
  }

  /** Resolution when no catalog entry matches. */
  lemma ResolveAtMiss(c: Catalogs, ingredientName: string, d: Draws)
    requires NoHit(Lower(ingredientName), Sections(c))
    ensures Resolve(c, ingredientName, d) == Fallback(ingredientName, d)
  {
    var hit := Scan(Lower(ingredientName), Sections(c));
  }

  lemma FirstGroupAt(lowerName: string, gs: seq<(string, seq<string>)>, g: nat)
    requires g < |gs|
    ensures FirstGroup(lowerName, gs) == Some(g) <==>
      ContainsAny(lowerName, gs[g].1) && forall h :: 0 <= h < g ==> !ContainsAny(lowerName, gs[h].1)
  {
    var r := FirstGroup(lowerName, gs);
    if r.Some? && r.value < g {
      assert ContainsAny(lowerName, gs[r.value].1);
    }
  }

  /** With distinct labels, none of them the default, the label names the first matching
      group, and the default appears exactly when no group matches. */
  lemma GroupLabelOrder(lowerName: string, gs: seq<(string, seq<string>)>, otherwise: string)
    requires forall a, b :: 0 <= a < b < |gs| ==> gs[a].0 != gs[b].0
    requires forall g :: 0 <= g < |gs| ==> gs[g].0 != otherwise
    ensures var cat := GroupLabel(lowerName, gs, otherwise);
      && (cat == otherwise <==> forall g :: 0 <= g < |gs| ==> !ContainsAny(lowerName, gs[g].1))
      && forall g :: 0 <= g < |gs| ==>
           (cat == gs[g].0 <==> ContainsAny(lowerName, gs[g].1)
                                && forall h :: 0 <= h < g ==> !ContainsAny(lowerName, gs[h].1))
  {
    forall g | 0 <= g < |gs|
      ensures GroupLabel(lowerName, gs, otherwise) == gs[g].0 <==>
        ContainsAny(lowerName, gs[g].1) && forall h :: 0 <= h < g ==> !ContainsAny(lowerName, gs[h].1)
    {
      FirstGroupAt(lowerName, gs, g);
      var r := FirstGroup(lowerName, gs);
      if r.Some? && r.value != g {
        assert gs[r.value].0 != gs[g].0;
      }
    }
  }

  /** The fallback category is the label of the first keyword group matching the
      lower-cased query, and 'Pantry' when none does (constants.ts:425-431). */
  lemma FallbackCategoryOrder(lowerName: string)
    ensures var cat, gs := FallbackCategory(lowerName), KeywordGroups();
      && (cat == "Pantry" <==> forall g :: 0 <= g < |gs| ==> !ContainsAny(lowerName, gs[g].1))
      && forall g :: 0 <= g < |gs| ==>
           (cat == gs[g].0 <==> ContainsAny(lowerName, gs[g].1)
                                && forall h :: 0 <= h < g ==> !ContainsAny(lowerName, gs[h].1))
  {
    var gs := KeywordGroups();
    var labels := ["Meat", "Seafood", "Fruits", "Vegetables", "Dairy", "Bakery"];
    assert forall g :: 0 <= g < |gs| ==> gs[g].0 == labels[g];
    GroupLabelOrder(lowerName, gs, "Pantry");
  }

  /** The generated product (constants.ts:408-454): brand 'MarketChoice', weight '500g',
      the keyword category and its placeholder image, the match type from the first draw's
      thresholds, "Organic <name>" exactly for an exact match and "<name> Alternative"
      otherwise, at most one allergen from the four possible ones, and dietary types
      that start with Organic and Halal. */
  lemma FallbackShape(ingredientName: string, d: Draws)
    ensures var p, cat := Fallback(ingredientName, d), FallbackCategory(Lower(ingredientName));
      && p.brand == "MarketChoice" && p.weight == "500g"
      && p.category == Some(cat) && p.imageUrl == CategoryPlaceholder(cat)
      && (p.matchType == ExactMatch <==> d.first < 0.4)
      && (p.matchType == SimilarItem <==> 0.4 <= d.first < 0.6)
      && (p.matchType == BestPrice <==> 0.6 <= d.first < 0.8)
      && (p.matchType == PremiumProduct <==> 0.8 <= d.first)
      && (p.matchType == ExactMatch ==> p.name == "Organic " + ingredientName)
      && (p.matchType != ExactMatch ==> p.name == ingredientName + " Alternative")
      && p.allergens == Some(FallbackAllergens(d))
      && p.dietaryType == Some(FallbackDietary(d))
  {
    FallbackMatchTypeRanges(d.first);
  }

  /** An empty query matches the first vegetable entry, since every name contains "". */
  lemma EmptyQueryTakesFirstVegetable(c: Catalogs, d: Draws)
    requires c.vegetables != []
    ensures Resolve(c, "", d).name == c.vegetables[0].name
    ensures Resolve(c, "", d).category == Some("Vegetables")
  {
    ContainsEmpty(Lower(c.vegetables[0].name));
    assert Lower("") == "";
    assert EntryMatches("", ["coles"], c.vegetables[0]);
    assert IsFirstHit("", Sections(c), 0, 0);
    CatalogHit(c, "", d, 0, 0);
  }
}
