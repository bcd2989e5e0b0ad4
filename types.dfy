/** The record shapes of the application (products, review and cart lines, users,
    addresses, cards, orders, recipes) and the navigation enumerations. Optional
    properties (`x?: T`) become `Option<T>`; money is an exact `real`. */
module Types {

  datatype Option<T> = None | Some(value: T)

  /** How a product relates to the ingredient it was found for. */
  datatype MatchType = ExactMatch | SimilarItem | BestPrice | PremiumProduct

  datatype Nutrition = Nutrition(protein: string, carbs: string, fat: string, fiber: Option<string>)

  datatype Product = Product(
    id: string,
    name: string,
    brand: string,
    price: real,
    imageUrl: string,
    matchType: MatchType,
    weight: string,
    category: Option<string>,
    calories: Option<int>,
    nutrition: Option<Nutrition>,
    pricePerUnit: Option<string>,
    allergens: Option<seq<string>>,
    dietaryType: Option<seq<string>>,
    stockQuantity: Option<int>,
    isActive: Option<bool>)

  datatype Ingredient = Ingredient(name: string, quantity: Option<string>)

  /** A line of the cart or of an order. */
  datatype ReviewItem = ReviewItem(
    id: string,
    ingredient: Ingredient,
    product: Product,
    quantity: int,
    selectedOptions: Option<seq<string>>)

  /** A line of the review list: a ReviewItem with its selection flag. */
  datatype ExtendedReviewItem = ExtendedReviewItem(
    id: string,
    ingredient: Ingredient,
    product: Product,
    quantity: int,
    selectedOptions: Option<seq<string>>,
    isSelected: bool)
  {
    /** The ReviewItem part (the object without its extra property). */
    function Base(): ReviewItem {
      ReviewItem(id, ingredient, product, quantity, selectedOptions)
    }
  }

  /** `{ ...item, isSelected }`: a ReviewItem extended with a selection flag. */
  function Extend(item: ReviewItem, selected: bool): (r: ExtendedReviewItem)
    ensures r.Base() == item && r.isSelected == selected
  {
    ExtendedReviewItem(item.id, item.ingredient, item.product, item.quantity,
                       item.selectedOptions, selected)
  }

  datatype UserRole = Admin | Customer

  datatype User = User(id: string, name: string, email: string, avatarUrl: string, role: UserRole)

  /** A saved delivery address. Addresses and categories carry a display `label`,
      called `caption` here because `label` is a Dafny keyword. */
  datatype Address = Address(id: string, caption: string, fullAddress: string, isDefault: bool)

  /** A saved card; the property `type` of the source is `cardType` here. */
  datatype PaymentMethod = PaymentMethod(
    id: string, cardType: string, last4: string, expiry: string, isDefault: bool)

  datatype OrderStatus =
    | Delivered | OutForDelivery | Preparing | Cancelled | OrderReceived | ReadyForPickup

  datatype Partner = Uber | Grab | Self

  datatype Order = Order(
    id: string,
    date: string,
    total: real,
    status: OrderStatus,
    items: seq<ReviewItem>,
    customerName: Option<string>,
    deliveryPartner: Option<Partner>)

  datatype Tab = HomeTab | OrdersTab | CategoriesTab | ProfileTab

  datatype HomeView = Dashboard | Upload | Review | ProductDetail | CategoryDetail | RecipeDetail

  datatype ShopView = Cart | Payment | Success

  datatype ProfileView = Menu | OrdersList | Addresses | Payments | Help

  datatype AdminView = AdminHome | AdminProducts | AdminOrders | AdminRecipes | AdminStock

  datatype Recipe = Recipe(
    id: string,
    title: string,
    description: string,
    imageUrl: string,
    cookTime: string,
    ingredientCount: int,
    ingredients: Option<seq<string>>,
    priceEstimate: Option<real>,
    isFavorite: Option<bool>)

  datatype Category = Category(id: string, caption: string, icon: Option<string>, imageUrl: Option<string>)

  /** Sum of price × quantity over a list of lines (the `reduce` used for carts and orders). */
  function LineTotal(items: seq<ReviewItem>): real
  {
    if items == [] then 0.0
    else
      var last := items[|items| - 1];
      LineTotal(items[..|items| - 1]) + last.product.price * (last.quantity as real)
  }

  lemma {:induction false} LineTotalConcat(a: seq<ReviewItem>, b: seq<ReviewItem>)
    ensures LineTotal(a + b) == LineTotal(a) + LineTotal(b)
    decreases |b|
  {
    if b == [] {
      assert a + b == a;
    } else {
      assert (a + b)[..|a + b| - 1] == a + b[..|b| - 1];
      LineTotalConcat(a, b[..|b| - 1]);
    }
  }

  /** Lines with non-negative prices and quantities have a non-negative total. */
  lemma {:induction false} LineTotalNonNegative(items: seq<ReviewItem>)
    requires forall i :: 0 <= i < |items| ==> items[i].product.price >= 0.0 && items[i].quantity >= 0
    ensures LineTotal(items) >= 0.0
    decreases |items|
  {
    if items != [] {
      LineTotalNonNegative(items[..|items| - 1]);
      var last := items[|items| - 1];
      assert last.product.price * (last.quantity as real) >= 0.0;
    }
  }
}
