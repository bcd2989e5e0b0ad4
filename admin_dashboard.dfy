/** The admin dashboard (components/AdminDashboard.tsx): the statistics cards, the
    inventory and recipe lists with their search and category filters, the product and
    recipe editors with their save guards, and the order status controls. The
    dashboard reports changes to the application through callbacks; here they are the
    actions its handlers return. */
module AdminDashboard {
  import opened Types
  import opened Text
  import opened Seqs
  import App
  import Catalog

  // ---------------------------------------------------------------------------
  // Statistics (components/AdminDashboard.tsx:149-151)

  /** `orders.reduce((acc, order) => acc + order.total, 0)`. */
  function TotalSales(orders: seq<Order>): real
    decreases |orders|
  {
    if orders == [] then 0.0 else TotalSales(orders[..|orders| - 1]) + orders[|orders| - 1].total
  }

  lemma {:induction false} TotalSalesConcat(a: seq<Order>, b: seq<Order>)
    ensures TotalSales(a + b) == TotalSales(a) + TotalSales(b)
    decreases |b|
  {
    if b == [] {
      assert a + b == a;
    } else {
      assert (a + b)[..|a + b| - 1] == a + b[..|b| - 1];
      TotalSalesConcat(a, b[..|b| - 1]);
    }
  }

  /** Recording a paid order raises the revenue by exactly that order's total. */
  lemma CheckoutRaisesSales(cart: seq<ReviewItem>, user: Option<User>, r: Catalog.Draw, today: string, orders: seq<Order>)
    ensures TotalSales([App.NewOrder(cart, user, r, today)] + orders)
            == TotalSales(orders) + App.CheckoutTotal(cart)
  {
    var o := App.NewOrder(cart, user, r, today);
    TotalSalesConcat([o], orders);
    assert [o][..0] == [];
  }

  predicate IsPending(o: Order) {
    o.status != Delivered && o.status != Cancelled
  }

  predicate IsClosed(o: Order) {
    o.status == Delivered || o.status == Cancelled
  }

  /** `pendingOrders`: orders neither delivered nor cancelled. */
  function PendingOrders(orders: seq<Order>): (n: nat)
    ensures n == Count(orders, IsPending) && n <= |orders|
    ensures n + Count(orders, IsClosed) == |orders|
  {
    CountComplement(orders, IsPending, IsClosed);
    CountIsFilterLength(orders, IsPending);
    |Filter(orders, IsPending)|
  }

  /** `(p.stockQuantity || 0)`. */
  function StockOf(p: Product): int {
    match p.stockQuantity case Some(q) => q case None => 0
  }

  predicate IsLowStock(p: Product) {
    StockOf(p) < 5
  }

  /** `lowStockItems`: products with fewer than five in stock, a missing stock counting
      as none. */
  function LowStockItems(products: seq<Product>): (n: nat)
    ensures n == Count(products, IsLowStock) && n <= |products|
    ensures (forall i :: 0 <= i < |products| ==> products[i].stockQuantity.None?) ==> n == |products|
  {
    CountIsFilterLength(products, IsLowStock);
    |Filter(products, IsLowStock)|
  }

  // ---------------------------------------------------------------------------
  // Listings (components/AdminDashboard.tsx:414-419, 463-467, 490)

  /** The inventory filter: the lower-cased name contains the lower-cased search term
      and the category is the selected one, or 'All' is selected. */
  predicate ListedProduct(searchTerm: string, selectedCategory: string, p: Product) {
    Contains(Lower(p.name), Lower(searchTerm))
    && (selectedCategory == "All" || p.category == Some(selectedCategory))
  }

  function ProductListing(products: seq<Product>, searchTerm: string, selectedCategory: string)
    : (r: seq<Product>)
    ensures forall p :: p in r <==> p in products && ListedProduct(searchTerm, selectedCategory, p)
    ensures forall p :: multiset(r)[p] ==
              if ListedProduct(searchTerm, selectedCategory, p) then multiset(products)[p] else 0
    ensures IsSubseq(r, products)
  {
    FilterIsSubseq(products, (p: Product) => ListedProduct(searchTerm, selectedCategory, p));
    Filter(products, (p: Product) => ListedProduct(searchTerm, selectedCategory, p))
  }

  /** "No products found." appears exactly when no product passes the filter. */
  predicate ShowsNoProducts(products: seq<Product>, searchTerm: string, selectedCategory: string) {
    |ProductListing(products, searchTerm, selectedCategory)| == 0
  }

  lemma NoProductsIff(products: seq<Product>, searchTerm: string, selectedCategory: string)
    ensures ShowsNoProducts(products, searchTerm, selectedCategory) <==>
            forall i :: 0 <= i < |products| ==> !ListedProduct(searchTerm, selectedCategory, products[i])
  {
    var r := ProductListing(products, searchTerm, selectedCategory);
    if r != [] {
      assert r[0] in r;
    }
    if exists i :: 0 <= i < |products| && ListedProduct(searchTerm, selectedCategory, products[i]) {
      var i :| 0 <= i < |products| && ListedProduct(searchTerm, selectedCategory, products[i]);
      assert products[i] in r;
    }
  }

  /** With no search term and 'All' selected the whole inventory is listed. */
  lemma UnfilteredListing(products: seq<Product>)
    ensures ProductListing(products, "", "All") == products
  {
    forall i | 0 <= i < |products| ensures ListedProduct("", "All", products[i]) {
      ContainsEmpty(Lower(products[i].name));
    }
  }

  predicate ListedRecipe(searchTerm: string, r: Recipe) {
    Contains(Lower(r.title), Lower(searchTerm))
  }

  /** The recipe list: titles containing the search term, case-insensitively. */
  function RecipeListing(recipes: seq<Recipe>, searchTerm: string): (r: seq<Recipe>)
    ensures forall x :: x in r <==> x in recipes && ListedRecipe(searchTerm, x)
    ensures forall x :: multiset(r)[x] == if ListedRecipe(searchTerm, x) then multiset(recipes)[x] else 0
    ensures IsSubseq(r, recipes)
  {
    FilterIsSubseq(recipes, (x: Recipe) => ListedRecipe(searchTerm, x));
    Filter(recipes, (x: Recipe) => ListedRecipe(searchTerm, x))
  }

  // ---------------------------------------------------------------------------
  // Order status controls (components/AdminDashboard.tsx:587-608)

  /** The delivery buttons show only for an order ready for pickup without a partner. */
  predicate PartnerOffered(o: Order) {
    o.status == ReadyForPickup && o.deliveryPartner.None?
  }

  /** The `onUpdateOrderStatus` arguments the two delivery buttons send. */
  function PartnerButtons(o: Order): (r: seq<(OrderStatus, Partner)>)
    ensures |r| > 0 <==> PartnerOffered(o)
    ensures forall k :: 0 <= k < |r| ==> r[k].0 == OutForDelivery && r[k].1 != Self
  {
    if PartnerOffered(o) then [(OutForDelivery, Uber), (OutForDelivery, Grab)] else []
  }

  /** Pressing a delivery button sends that order out with the partner, after which the
      buttons are gone. */
  lemma AssignPartner(orders: seq<Order>, k: nat, b: nat)
    requires k < |orders| && b < |PartnerButtons(orders[k])|
    ensures var button := PartnerButtons(orders[k])[b];
            var r := App.UpdateOrderStatus(orders, orders[k].id, button.0, Some(button.1));
            r[k].status == OutForDelivery && r[k].deliveryPartner == Some(button.1) && !PartnerOffered(r[k])
  {
  }

  /** The status select sends no partner, so an assigned partner stays. */
  lemma StatusSelectKeepsPartner(orders: seq<Order>, k: nat, status: OrderStatus)
    requires k < |orders|
    ensures App.UpdateOrderStatus(orders, orders[k].id, status, None)[k].deliveryPartner
            == orders[k].deliveryPartner
  {
  }

  // ---------------------------------------------------------------------------
  // The product editor (components/AdminDashboard.tsx:172-207)

  /** `Partial<Product>`: every property may be absent. */
  datatype ProductForm = ProductForm(
    id: Option<string>, name: Option<string>, brand: Option<string>, price: Option<real>,
    imageUrl: Option<string>, matchType: Option<MatchType>, weight: Option<string>,
    category: Option<string>, calories: Option<int>, nutrition: Option<Nutrition>,
    pricePerUnit: Option<string>, allergens: Option<seq<string>>, dietaryType: Option<seq<string>>,
    stockQuantity: Option<int>, isActive: Option<bool>)

  function EmptyProductForm(): ProductForm {
    ProductForm(None, None, None, None, None, None, None, None, None, None, None, None, None, None, None)
  }

  function Pick<T>(f: Option<T>, base: T): T {
    match f case Some(v) => v case None => base
  }

  function PickOpt<T>(f: Option<T>, base: Option<T>): Option<T> {
    if f.Some? then f else base
  }

  /** `{ ...product }` as a form. */
  function FormOf(p: Product): ProductForm {
    ProductForm(Some(p.id), Some(p.name), Some(p.brand), Some(p.price), Some(p.imageUrl),
      Some(p.matchType), Some(p.weight), p.category, p.calories, p.nutrition, p.pricePerUnit,
      p.allergens, p.dietaryType, p.stockQuantity, p.isActive)
  }

  /** `{ ...base, ...form }` onto a product: a property present in the form wins. */
  function Overlay(base: Product, f: ProductForm): (r: Product)
    ensures f.id.None? ==> r.id == base.id
    ensures f.name.Some? ==> r.name == f.name.value
    ensures f.price.Some? ==> r.price == f.price.value
    ensures f == EmptyProductForm() ==> r == base
    ensures FormOf(r) == OverlayForm(FormOf(base), f)
  {
    Product(Pick(f.id, base.id), Pick(f.name, base.name), Pick(f.brand, base.brand),
      Pick(f.price, base.price), Pick(f.imageUrl, base.imageUrl), Pick(f.matchType, base.matchType),
      Pick(f.weight, base.weight), PickOpt(f.category, base.category), PickOpt(f.calories, base.calories),
      PickOpt(f.nutrition, base.nutrition), PickOpt(f.pricePerUnit, base.pricePerUnit),
      PickOpt(f.allergens, base.allergens), PickOpt(f.dietaryType, base.dietaryType),
      PickOpt(f.stockQuantity, base.stockQuantity), PickOpt(f.isActive, base.isActive))
  }

  /** `{ ...base, ...form }` between two partial records. */
  function OverlayForm(base: ProductForm, f: ProductForm): ProductForm {
    ProductForm(PickOpt(f.id, base.id), PickOpt(f.name, base.name), PickOpt(f.brand, base.brand),
      PickOpt(f.price, base.price), PickOpt(f.imageUrl, base.imageUrl), PickOpt(f.matchType, base.matchType),
      PickOpt(f.weight, base.weight), PickOpt(f.category, base.category), PickOpt(f.calories, base.calories),
      PickOpt(f.nutrition, base.nutrition), PickOpt(f.pricePerUnit, base.pricePerUnit),
      PickOpt(f.allergens, base.allergens), PickOpt(f.dietaryType, base.dietaryType),
      PickOpt(f.stockQuantity, base.stockQuantity), PickOpt(f.isActive, base.isActive))
  }

  /** Opening the editor on a product and saving it unchanged gives back the product. */
  lemma EditRoundTrip(p: Product)
    ensures Overlay(p, FormOf(p)) == p
  {
  }

  /** An edit keeps every property the form does not carry, the id included. */
  lemma EditKeepsUntouched(p: Product, f: ProductForm)
    ensures var r := Overlay(p, OverlayForm(FormOf(p), f));
            r.id == Pick(f.id, p.id) && r.brand == Pick(f.brand, p.brand)
            && r.category == PickOpt(f.category, p.category) && r.matchType == Pick(f.matchType, p.matchType)
            && r == Overlay(p, f)
            && FormOf(r) == OverlayForm(FormOf(p), f)
  {
    var g := OverlayForm(FormOf(p), f);
    var r := Overlay(p, g);
    FormOfInjective(r, Overlay(p, f));
  }

  /** A product is determined by its form. */
  lemma FormOfInjective(p: Product, q: Product)
    requires FormOf(p) == FormOf(q)
    ensures p == q
  {
  }

  /** `handleAddNewProduct`'s initial form. */
  function NewProductForm(): ProductForm {
    EmptyProductForm().(name := Some(""), price := Some(0.0), stockQuantity := Some(10),
      category := Some("Vegetables"), brand := Some("Coles"),
      imageUrl := Some("https://source.unsplash.com/random/200x200/?vegetable"),
      weight := Some("1kg"), nutrition := Some(Nutrition("0g", "0g", "0g", None)))
  }

  /** The record a new product is built from: a `prod-` id, 'Exact match' and '1kg',
      each overridden by the form when it carries that property. */
  function NewProductRecord(f: ProductForm, token: string): ProductForm {
    OverlayForm(EmptyProductForm().(id := Some("prod-" + token), matchType := Some(ExactMatch),
                                   weight := Some("1kg")), f)
  }

  /** Whether a partial record carries every property a Product needs. */
  predicate Complete(f: ProductForm) {
    f.id.Some? && f.name.Some? && f.brand.Some? && f.price.Some? && f.imageUrl.Some?
    && f.matchType.Some? && f.weight.Some?
  }

  function ToProduct(f: ProductForm): (p: Product)
    requires Complete(f)
    ensures FormOf(p) == f
  {
    Product(f.id.value, f.name.value, f.brand.value, f.price.value, f.imageUrl.value, f.matchType.value,
      f.weight.value, f.category, f.calories, f.nutrition, f.pricePerUnit, f.allergens, f.dietaryType,
      f.stockQuantity, f.isActive)
  }

  /** A new product built from a form carrying name, brand, price and image is a whole
      product: its id is the form's or `prod-` + token, and its match type and weight
      the form's or 'Exact match' and '1kg'. */
  lemma NewProductShape(f: ProductForm, token: string)
    requires f.name.Some? && f.brand.Some? && f.price.Some? && f.imageUrl.Some?
    ensures Complete(NewProductRecord(f, token))
    ensures var p := ToProduct(NewProductRecord(f, token));
            p.id == Pick(f.id, "prod-" + token) && p.matchType == Pick(f.matchType, ExactMatch)
            && p.weight == Pick(f.weight, "1kg") && p.name == f.name.value && p.price == f.price.value
  {
  }

  /** `!productFormData.name || !productFormData.price`: a missing or empty name, or a
      missing or zero price, blocks the save. */
  predicate ProductSaveBlocked(f: ProductForm) {
    f.name.None? || f.name.value == "" || f.price.None? || f.price.value == 0.0
  }

  /** What `handleSaveProduct` reports to the application. */
  datatype ProductAction = NoProductAction | UpdateProduct(product: Product) | AddProduct(record: ProductForm)

  /** `handleAddNewRecipe`'s initial form and the recipe counterparts of the above. */
  datatype RecipeForm = RecipeForm(
    id: Option<string>, title: Option<string>, description: Option<string>, imageUrl: Option<string>,
    cookTime: Option<string>, ingredientCount: Option<int>, ingredients: Option<seq<string>>,
    priceEstimate: Option<real>, isFavorite: Option<bool>)

  function RecipeFormOf(r: Recipe): RecipeForm {
    RecipeForm(Some(r.id), Some(r.title), Some(r.description), Some(r.imageUrl), Some(r.cookTime),
      Some(r.ingredientCount), r.ingredients, r.priceEstimate, r.isFavorite)
  }

  function OverlayRecipe(base: Recipe, f: RecipeForm): Recipe {
    Recipe(Pick(f.id, base.id), Pick(f.title, base.title), Pick(f.description, base.description),
      Pick(f.imageUrl, base.imageUrl), Pick(f.cookTime, base.cookTime),
      Pick(f.ingredientCount, base.ingredientCount), PickOpt(f.ingredients, base.ingredients),
      PickOpt(f.priceEstimate, base.priceEstimate), PickOpt(f.isFavorite, base.isFavorite))
  }

  lemma RecipeEditRoundTrip(r: Recipe)
    ensures OverlayRecipe(r, RecipeFormOf(r)) == r
  {
  }

  function NewRecipeForm(): RecipeForm {
    RecipeForm(None, Some(""), Some(""), Some("https://source.unsplash.com/random/400x300/?food"),
      Some("30 min"), Some(5), None, None, None)
  }

  /** The recipe `handleSaveRecipe` adds: the defaults below, each overridden by the
      form when it carries that property. */
  function NewRecipe(f: RecipeForm, token: string): (r: Recipe)
    ensures r.id == Pick(f.id, "recipe-" + token) && r.title == Pick(f.title, "New Recipe")
    ensures r.description == Pick(f.description, "") && r.imageUrl == Pick(f.imageUrl, "")
    ensures r.cookTime == Pick(f.cookTime, "15 min") && r.ingredientCount == Pick(f.ingredientCount, 0)
  {
    OverlayRecipe(Recipe("recipe-" + token, "New Recipe", "", "", "15 min", 0, None, None, None), f)
  }

  /** A recipe saved from the new-recipe form keeps the form's cook time and count, not
      the fallback ones. */
  lemma NewRecipeFromForm(title: string, token: string)
    ensures var r := NewRecipe(NewRecipeForm().(title := Some(title)), token);
            r.title == title && r.cookTime == "30 min" && r.ingredientCount == 5 && r.id == "recipe-" + token
  {
  }

  /** `!recipeFormData.title`. */
  predicate RecipeSaveBlocked(f: RecipeForm) {
    f.title.None? || f.title.value == ""
  }

  datatype RecipeAction = NoRecipeAction | UpdateRecipe(recipe: Recipe) | AddRecipe(recipe: Recipe)

  // ---------------------------------------------------------------------------
  // The dashboard state

  class AdminScreen {
    var activeView: AdminView
    var searchTerm: string
    var selectedProductCategory: string
    var isProductModalOpen: bool
    var editingProduct: Option<Product>
    var productFormData: ProductForm
    var isRecipeModalOpen: bool
    var editingRecipe: Option<Recipe>
    var recipeFormData: RecipeForm

    constructor ()
      ensures activeView == AdminHome && searchTerm == "" && selectedProductCategory == "All"
      ensures !isProductModalOpen && editingProduct.None? && productFormData == EmptyProductForm()
      ensures !isRecipeModalOpen && editingRecipe.None?
      ensures recipeFormData == RecipeForm(None, None, None, None, None, None, None, None, None)
    {
      activeView := AdminHome;
      searchTerm := "";
      selectedProductCategory := "All";
      isProductModalOpen := false;
      editingProduct := None;
      productFormData := EmptyProductForm();
      isRecipeModalOpen := false;
      editingRecipe := None;
      recipeFormData := RecipeForm(None, None, None, None, None, None, None, None, None);
    }

    method SetActiveView(v: AdminView)
      modifies this`activeView
      ensures activeView == v
    {
      activeView := v;
    }

    method SetSearchTerm(term: string)
      modifies this`searchTerm
      ensures searchTerm == term
    {
      searchTerm := term;
    }

    method SelectProductCategory(category: string)
      modifies this`selectedProductCategory
      ensures selectedProductCategory == category
    {
      selectedProductCategory := category;
    }

    method HandleEditProduct(p: Product)
      modifies this`editingProduct, this`productFormData, this`isProductModalOpen
      ensures editingProduct == Some(p) && productFormData == FormOf(p) && isProductModalOpen
    {
      editingProduct := Some(p);
      productFormData := FormOf(p);
      isProductModalOpen := true;
    }

    method HandleAddNewProduct()
      modifies this`editingProduct, this`productFormData, this`isProductModalOpen
      ensures editingProduct.None? && productFormData == NewProductForm() && isProductModalOpen
    {
      editingProduct := None;
      productFormData := NewProductForm();
      isProductModalOpen := true;
    }

    /** The editor's inputs: each sets one property of the form. */
    method SetProductName(value: string)
      modifies this`productFormData
      ensures productFormData == old(productFormData).(name := Some(value))
    {
      productFormData := productFormData.(name := Some(value));
    }

    method SetProductPrice(value: real)
      modifies this`productFormData
      ensures productFormData == old(productFormData).(price := Some(value))
    {
      productFormData := productFormData.(price := Some(value));
    }

    method SetProductStock(value: int)
      modifies this`productFormData
      ensures productFormData == old(productFormData).(stockQuantity := Some(value))
    {
      productFormData := productFormData.(stockQuantity := Some(value));
    }

    method SetProductCategory(value: string)
      modifies this`productFormData
      ensures productFormData == old(productFormData).(category := Some(value))
    {
      productFormData := productFormData.(category := Some(value));
    }

    /** The image picker's result goes to whichever editor is open, the recipe editor
        first. */
    method HandleImageUpload(result: string)
      modifies this`productFormData, this`recipeFormData
      ensures isRecipeModalOpen ==>
                recipeFormData == old(recipeFormData).(imageUrl := Some(result)) && productFormData == old(productFormData)
      ensures !isRecipeModalOpen && isProductModalOpen ==>
                productFormData == old(productFormData).(imageUrl := Some(result)) && recipeFormData == old(recipeFormData)
      ensures !isRecipeModalOpen && !isProductModalOpen ==>
                productFormData == old(productFormData) && recipeFormData == old(recipeFormData)
    {
      if isRecipeModalOpen {
        recipeFormData := recipeFormData.(imageUrl := Some(result));
      } else if isProductModalOpen {
        productFormData := productFormData.(imageUrl := Some(result));
      }
    }

    /** `handleSaveProduct`; `token` is the random part of a new id. */
    method HandleSaveProduct(token: string) returns (action: ProductAction)
      modifies this`isProductModalOpen
      ensures ProductSaveBlocked(productFormData) ==>
                action == NoProductAction && isProductModalOpen == old(isProductModalOpen)
      ensures !ProductSaveBlocked(productFormData) && editingProduct.Some? ==>
                action == UpdateProduct(Overlay(editingProduct.value, productFormData)) && !isProductModalOpen
      ensures !ProductSaveBlocked(productFormData) && editingProduct.None? ==>
                action == AddProduct(NewProductRecord(productFormData, token)) && !isProductModalOpen
    {
      if ProductSaveBlocked(productFormData) {
        return NoProductAction;
      }
      if editingProduct.Some? {
        action := UpdateProduct(Overlay(editingProduct.value, productFormData));
      } else {
        action := AddProduct(NewProductRecord(productFormData, token));
      }
      isProductModalOpen := false;
    }

    method HandleEditRecipe(r: Recipe)
      modifies this`editingRecipe, this`recipeFormData, this`isRecipeModalOpen
      ensures editingRecipe == Some(r) && recipeFormData == RecipeFormOf(r) && isRecipeModalOpen
    {
      editingRecipe := Some(r);
      recipeFormData := RecipeFormOf(r);
      isRecipeModalOpen := true;
    }

    method HandleAddNewRecipe()
      modifies this`editingRecipe, this`recipeFormData, this`isRecipeModalOpen
      ensures editingRecipe.None? && recipeFormData == NewRecipeForm() && isRecipeModalOpen
    {
      editingRecipe := None;
      recipeFormData := NewRecipeForm();
      isRecipeModalOpen := true;
    }

    method SetRecipeImageUrl(value: string)
      modifies this`recipeFormData
      ensures recipeFormData == old(recipeFormData).(imageUrl := Some(value))
    {
      recipeFormData := recipeFormData.(imageUrl := Some(value));
    }

    method SetRecipeTitle(value: string)
      modifies this`recipeFormData
      ensures recipeFormData == old(recipeFormData).(title := Some(value))
    {
      recipeFormData := recipeFormData.(title := Some(value));
    }

    method SetRecipeDescription(value: string)
      modifies this`recipeFormData
      ensures recipeFormData == old(recipeFormData).(description := Some(value))
    {
      recipeFormData := recipeFormData.(description := Some(value));
    }

    method SetRecipeCookTime(value: string)
      modifies this`recipeFormData
      ensures recipeFormData == old(recipeFormData).(cookTime := Some(value))
    {
      recipeFormData := recipeFormData.(cookTime := Some(value));
    }

    method SetRecipeIngredientCount(value: int)
      modifies this`recipeFormData
      ensures recipeFormData == old(recipeFormData).(ingredientCount := Some(value))
    {
      recipeFormData := recipeFormData.(ingredientCount := Some(value));
    }

    /** `handleSaveRecipe`: blocked without a title or when the application passed no
        add or no update callback (`hasAdd`, `hasUpdate`). */
    method HandleSaveRecipe(token: string, hasAdd: bool, hasUpdate: bool) returns (action: RecipeAction)
      modifies this`isRecipeModalOpen
      ensures RecipeSaveBlocked(recipeFormData) || !hasAdd || !hasUpdate ==>
                action == NoRecipeAction && isRecipeModalOpen == old(isRecipeModalOpen)
      ensures !RecipeSaveBlocked(recipeFormData) && hasAdd && hasUpdate && editingRecipe.Some? ==>
                action == UpdateRecipe(OverlayRecipe(editingRecipe.value, recipeFormData)) && !isRecipeModalOpen
      ensures !RecipeSaveBlocked(recipeFormData) && hasAdd && hasUpdate && editingRecipe.None? ==>
                action == AddRecipe(NewRecipe(recipeFormData, token)) && !isRecipeModalOpen
    {
      if RecipeSaveBlocked(recipeFormData) || !hasAdd || !hasUpdate {
        return NoRecipeAction;
      }
      if editingRecipe.Some? {
        action := UpdateRecipe(OverlayRecipe(editingRecipe.value, recipeFormData));
      } else {
        action := AddRecipe(NewRecipe(recipeFormData, token));
      }
      isRecipeModalOpen := false;
    }
  }

  /** Saving straight after opening the new-product editor does nothing: the form's
      name is empty and its price zero. */
  lemma FreshProductFormBlocked()
    ensures ProductSaveBlocked(NewProductForm())
  {
  }

  /** A form that carries a product's own properties plus a new name and price saves as
      that product with the new name and price, keeping its id. */
  lemma EditedProductKeepsId(p: Product, name: string, price: real)
    requires name != "" && price != 0.0
    ensures var f := FormOf(p).(name := Some(name), price := Some(price));
            !ProductSaveBlocked(f) && Overlay(p, f) == p.(name := name, price := price)
  {
  }
}
