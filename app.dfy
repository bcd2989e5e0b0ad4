/** The application shell (App.tsx): the database-first product lookup, the review list
    built from an analysis, the cart merge, checkout, the cart stepper and removal, the
    admin collection handlers and the navigation guards. The list transformations are
    functions; the component state and its handlers are the class `AppState`. */
module App {
  import opened Types
  import opened Text
  import opened Seqs
  import opened Catalog
  import opened CatalogData
  import ShoppingBag

  // ---------------------------------------------------------------------------
  // Database lookup (App.tsx:272-280)

  /** The `find` predicate of `findProductInDatabase`: the lower-cased product name
      contains the lower-cased query, or the query contains the product name. */
  predicate NameMatches(lowerQuery: string, p: Product) {
    Contains(Lower(p.name), lowerQuery) || Contains(lowerQuery, Lower(p.name))
  }

  function FindProductFrom(db: seq<Product>, lowerQuery: string, start: nat): (r: Option<nat>)
    requires start <= |db|
    ensures r.Some? ==> start <= r.value < |db| && NameMatches(lowerQuery, db[r.value])
    ensures r.Some? ==> forall j :: start <= j < r.value ==> !NameMatches(lowerQuery, db[j])
    ensures r.None? <==> forall j :: start <= j < |db| ==> !NameMatches(lowerQuery, db[j])
    decreases |db| - start
  {
    if start == |db| then None
    else if NameMatches(lowerQuery, db[start]) then Some(start)
    else FindProductFrom(db, lowerQuery, start + 1)
  }

  /** `findProductInDatabase`: the first product of the database that matches. */
  function FindProductInDatabase(db: seq<Product>, name: string): (r: Option<Product>)
    ensures r.None? <==> forall j :: 0 <= j < |db| ==> !NameMatches(Lower(name), db[j])
    ensures r.Some? ==> exists i :: 0 <= i < |db| && db[i] == r.value && NameMatches(Lower(name), db[i])
                          && forall j :: 0 <= j < i ==> !NameMatches(Lower(name), db[j])
  {
    match FindProductFrom(db, Lower(name), 0)
    case Some(i) => Some(db[i])
    case None => None
  }

  /** `findProductInDatabase(name) || generateMockProduct(name)`. */
  function MatchProduct(db: seq<Product>, c: Catalogs, name: string, d: Draws): (r: Product)
    ensures (exists j :: 0 <= j < |db| && NameMatches(Lower(name), db[j])) ==>
              r in db && NameMatches(Lower(name), r)
    ensures (forall j :: 0 <= j < |db| ==> !NameMatches(Lower(name), db[j])) ==>
              r == Resolve(c, name, d)
  {
    match FindProductInDatabase(db, name)
    case Some(p) => p
    case None => Resolve(c, name, d)
  }

  /** `getMatchingProducts`: one product per ingredient name, in order; `roll(i)` holds
      the random draws of the i-th resolver call. */
  function GetMatchingProducts(db: seq<Product>, c: Catalogs, names: seq<string>, roll: nat -> Draws)
    : (r: seq<Product>)
    ensures |r| == |names|
    ensures forall i :: 0 <= i < |names| ==> r[i] == MatchProduct(db, c, names[i], roll(i))
  {
    seq(|names|, i requires 0 <= i < |names| => MatchProduct(db, c, names[i], roll(i)))
  }

  /** A name found in the database is never resolved against the catalogs. */
  lemma LookupPrefersDatabase(db: seq<Product>, c: Catalogs, names: seq<string>, roll: nat -> Draws, i: nat)
    requires i < |names| && exists j :: 0 <= j < |db| && NameMatches(Lower(names[i]), db[j])
    ensures GetMatchingProducts(db, c, names, roll)[i] in db
    ensures GetMatchingProducts(db, c, names, roll)[i] == FindProductInDatabase(db, names[i]).value
  {
  }

  // ---------------------------------------------------------------------------
  // The review list built from an analysis (App.tsx:281-292)

  function ItemId(i: nat): string {
    "item-" + NatToString(i)
  }

  lemma ItemIdInjective(i: nat, j: nat)
    requires ItemId(i) == ItemId(j)
    ensures i == j
  {
    assert ItemId(i)[5..] == NatToString(i);
    assert ItemId(j)[5..] == NatToString(j);
    NatToStringInjective(i, j);
  }

  /** The `initialItems` of `handleAnalysisComplete`. */
  function AnalysisItems(db: seq<Product>, c: Catalogs, ingredients: seq<Ingredient>, roll: nat -> Draws)
    : (r: seq<ExtendedReviewItem>)
    ensures |r| == |ingredients|
    ensures forall i :: 0 <= i < |r| ==>
              r[i].ingredient == ingredients[i] && r[i].quantity == 1 && r[i].isSelected
              && r[i].selectedOptions.None?
              && r[i].product == MatchProduct(db, c, ingredients[i].name, roll(i))
    ensures forall i :: 0 <= i < |r| ==> r[i].id == ItemId(i)
  {
    seq(|ingredients|, i requires 0 <= i < |ingredients| =>
      ExtendedReviewItem(ItemId(i), ingredients[i], MatchProduct(db, c, ingredients[i].name, roll(i)),
                         1, None, true))
  }

  /** The ids `item-0`, `item-1`, ... of a fresh review list are pairwise distinct. */
  lemma AnalysisIdsDistinct(db: seq<Product>, c: Catalogs, ingredients: seq<Ingredient>, roll: nat -> Draws)
    ensures var r := AnalysisItems(db, c, ingredients, roll);
            forall i, j :: 0 <= i < j < |r| ==> r[i].id != r[j].id
  {
    var r := AnalysisItems(db, c, ingredients, roll);
    forall i, j | 0 <= i < j < |r| ensures r[i].id != r[j].id {
      if r[i].id == r[j].id {
        assert r[i].id == ItemId(i) && r[j].id == ItemId(j);
        ItemIdInjective(i, j);
      }
    }
  }

  // ---------------------------------------------------------------------------
  // The cart merge of `handleAddToCart` (App.tsx:319-332)

  predicate DifferentProducts(a: ReviewItem, b: ReviewItem) {
    a.product.id != b.product.id
  }

  /** No two cart lines hold the same product. */
  predicate DistinctProductIds(cart: seq<ReviewItem>) {
    forall i, j :: 0 <= i < j < |cart| ==> cart[i].product.id != cart[j].product.id
  }

  predicate PositiveQuantities(cart: seq<ReviewItem>) {
    forall x :: x in cart ==> x.quantity >= 1
  }

  /** The invariant of the cart the handlers keep. */
  predicate CartValid(cart: seq<ReviewItem>) {
    DistinctProductIds(cart) && PositiveQuantities(cart)
  }

  /** `findIndex(c => c.product.id === pid)`, from position `start` on. */
  function FindLine(cart: seq<ReviewItem>, pid: string, start: nat): (r: Option<nat>)
    requires start <= |cart|
    ensures r.Some? ==> start <= r.value < |cart| && cart[r.value].product.id == pid
    ensures r.Some? ==> forall j :: start <= j < r.value ==> cart[j].product.id != pid
    ensures r.None? <==> forall j :: start <= j < |cart| ==> cart[j].product.id != pid
    decreases |cart| - start
  {
    if start == |cart| then None
    else if cart[start].product.id == pid then Some(start)
    else FindLine(cart, pid, start + 1)
  }

  /** The lines of a cart differ from `old` at most in their quantities. */
  predicate KeepsLines(old_: seq<ReviewItem>, cart: seq<ReviewItem>) {
    |old_| <= |cart|
    && forall i :: 0 <= i < |old_| ==>
         cart[i] == old_[i].(quantity := cart[i].quantity) && cart[i].quantity >= old_[i].quantity
  }

  /** One step of the `forEach`: a non-positive quantity is ignored, a product already
      in the cart adds its quantity to the first line holding it, any other item is
      appended. */
  function MergeOne(cart: seq<ReviewItem>, item: ReviewItem): (r: seq<ReviewItem>)
    ensures item.quantity <= 0 ==> r == cart
    ensures |r| == |cart| || r == cart + [item]
    ensures KeepsLines(cart, r)
  {
    if item.quantity <= 0 then cart
    else match FindLine(cart, item.product.id, 0)
      case Some(k) => cart[k := cart[k].(quantity := cart[k].quantity + item.quantity)]
      case None => cart + [item]
  }

  /** The whole `forEach` over the incoming items, in order. */
  function MergeAll(cart: seq<ReviewItem>, items: seq<ReviewItem>): seq<ReviewItem>
    decreases |items|
  {
    if items == [] then cart else MergeAll(MergeOne(cart, items[0]), items[1..])
  }

  lemma MergeOneKeepsValid(cart: seq<ReviewItem>, item: ReviewItem)
    requires CartValid(cart)
    ensures CartValid(MergeOne(cart, item))
  {
    var r := MergeOne(cart, item);
    if item.quantity > 0 {
      match FindLine(cart, item.product.id, 0)
      case Some(k) =>
        assert r == cart[k := cart[k].(quantity := cart[k].quantity + item.quantity)];
        forall x | x in r ensures x.quantity >= 1 {
          var i :| 0 <= i < |r| && r[i] == x;
          if i != k { assert r[i] == cart[i]; }
        }
      case None =>
        assert r == cart + [item];
        forall x | x in r ensures x.quantity >= 1 {
          var i :| 0 <= i < |r| && r[i] == x;
          if i < |cart| { assert r[i] == cart[i]; }
        }
    }
  }

  /** A cart with distinct product ids and quantities of at least one keeps both
      properties whatever is merged into it. */
  lemma {:induction false} MergeAllKeepsValid(cart: seq<ReviewItem>, items: seq<ReviewItem>)
    requires CartValid(cart)
    ensures CartValid(MergeAll(cart, items))
    decreases |items|
  {
    if items != [] {
      MergeOneKeepsValid(cart, items[0]);
      MergeAllKeepsValid(MergeOne(cart, items[0]), items[1..]);
    }
  }

  /** The total quantity of product `pid` over the lines of a cart. */
  function QtyOf(cart: seq<ReviewItem>, pid: string): int
    decreases |cart|
  {
    if cart == [] then 0
    else (if cart[0].product.id == pid then cart[0].quantity else 0) + QtyOf(cart[1..], pid)
  }

  /** The quantity of `pid` the incoming items contribute (positive quantities only). */
  function AddedQty(items: seq<ReviewItem>, pid: string): int
    decreases |items|
  {
    if items == [] then 0
    else (if items[0].quantity > 0 && items[0].product.id == pid then items[0].quantity else 0)
         + AddedQty(items[1..], pid)
  }

  lemma {:induction false} QtyOfAppend(cart: seq<ReviewItem>, x: ReviewItem, pid: string)
    ensures QtyOf(cart + [x], pid) == QtyOf(cart, pid) + (if x.product.id == pid then x.quantity else 0)
    decreases |cart|
  {
    if cart == [] {
      assert (cart + [x])[1..] == [];
    } else {
      assert (cart + [x])[1..] == cart[1..] + [x];
      QtyOfAppend(cart[1..], x, pid);
    }
  }

  lemma {:induction false} QtyOfUpdate(cart: seq<ReviewItem>, k: nat, x: ReviewItem, pid: string)
    requires k < |cart| && x.product.id == cart[k].product.id
    ensures QtyOf(cart[k := x], pid) ==
            QtyOf(cart, pid) + (if x.product.id == pid then x.quantity - cart[k].quantity else 0)
    decreases |cart|
  {
    if k > 0 {
      assert cart[k := x][1..] == cart[1..][k - 1 := x];
      QtyOfUpdate(cart[1..], k - 1, x, pid);
    } else {
      assert cart[k := x][1..] == cart[1..];
    }
  }

  lemma MergeOneQty(cart: seq<ReviewItem>, item: ReviewItem, pid: string)
    ensures QtyOf(MergeOne(cart, item), pid) ==
            QtyOf(cart, pid) + (if item.quantity > 0 && item.product.id == pid then item.quantity else 0)
  {
    if item.quantity > 0 {
      match FindLine(cart, item.product.id, 0)
      case Some(k) =>
        QtyOfUpdate(cart, k, cart[k].(quantity := cart[k].quantity + item.quantity), pid);
      case None =>
        QtyOfAppend(cart, item, pid);
    }
  }

  /** Quantity accounting: after the merge every product holds its old quantity plus
      the positive quantities the incoming items carry for it. */
  lemma {:induction false} MergeAllQty(cart: seq<ReviewItem>, items: seq<ReviewItem>, pid: string)
    ensures QtyOf(MergeAll(cart, items), pid) == QtyOf(cart, pid) + AddedQty(items, pid)
    decreases |items|
  {
    if items != [] {
      MergeOneQty(cart, items[0], pid);
      MergeAllQty(MergeOne(cart, items[0]), items[1..], pid);
    }
  }

  /** Existing lines stay in place, in order, with the same id, ingredient, product and
      options; only their quantities grow, and new lines come after them. */
  lemma {:induction false} MergeAllKeepsLines(cart: seq<ReviewItem>, items: seq<ReviewItem>)
    ensures KeepsLines(cart, MergeAll(cart, items))
    decreases |items|
  {
    if items != [] {
      var next := MergeOne(cart, items[0]);
      assert KeepsLines(cart, next);
      MergeAllKeepsLines(next, items[1..]);
    }
  }

  /** The `forEach` of `handleAddToCart` over a copy of the cart: each item with a
      positive quantity either adds to the line holding its product (`findIndex`,
      index assignment) or is pushed at the end. */
  method MergeItems(cart: seq<ReviewItem>, items: seq<ReviewItem>) returns (newCart: seq<ReviewItem>)
    ensures newCart == MergeAll(cart, items)
  {
    newCart := cart;
    var i := 0;
    while i < |items|
      invariant 0 <= i <= |items|
      invariant MergeAll(cart, items) == MergeAll(newCart, items[i..])
    {
      var newItem := items[i];
      assert items[i..][1..] == items[i + 1..];
      ghost var before := newCart;
      if newItem.quantity > 0 {
        var existingIndex := FindLine(newCart, newItem.product.id, 0);
        if existingIndex.Some? {
          var k := existingIndex.value;
          newCart := newCart[k := newCart[k].(quantity := newCart[k].quantity + newItem.quantity)];
        } else {
          newCart := newCart + [newItem];
        }
      }
      assert newCart == MergeOne(before, newItem);
      i := i + 1;
    }
    assert items[i..] == [];
  }

  // ---------------------------------------------------------------------------
  // `handleSingleItemPurchase` on the review list (App.tsx:345-357)

  /** The lines with the selected id take the purchased product, quantity and options;
      id, ingredient and selection flag are kept, and every other line is unchanged. */
  function ApplyPurchase(items: seq<ExtendedReviewItem>, id: string, updated: ReviewItem)
    : (r: seq<ExtendedReviewItem>)
    ensures |r| == |items|
    ensures forall i :: 0 <= i < |items| && items[i].id != id ==> r[i] == items[i]
    ensures forall i :: 0 <= i < |items| && items[i].id == id ==>
              r[i].id == id && r[i].ingredient == items[i].ingredient && r[i].isSelected == items[i].isSelected
              && r[i].product == updated.product && r[i].quantity == updated.quantity
              && r[i].selectedOptions == updated.selectedOptions
  {
    seq(|items|, i requires 0 <= i < |items| =>
      if items[i].id == id
      then items[i].(product := updated.product, quantity := updated.quantity,
                     selectedOptions := updated.selectedOptions)
      else items[i])
  }

  // ---------------------------------------------------------------------------
  // Checkout (App.tsx:364-375)

  /** The order total `handlePaymentSuccess` computes with its own copy of the rule. */
  function CheckoutTotal(cart: seq<ReviewItem>): (r: real)
    ensures r == ShoppingBag.Total(cart)
  {
    var total := LineTotal(cart);
    var deliveryFee := if |cart| == 0 then 0.0 else if total > 50.0 then 0.0 else 3.99;
    total + deliveryFee
  }

  /** `currentUser?.name || 'Guest'`. */
  function CustomerName(user: Option<User>): (r: string)
    ensures r != ""
    ensures user.Some? && user.value.name != "" ==> r == user.value.name
    ensures user.None? || user.value.name == "" ==> r == "Guest"
  {
    if user.Some? && user.value.name != "" then user.value.name else "Guest"
  }

  /** `Math.floor(Math.random() * 10000) + 1000`. */
  function OrderNumber(r: Draw): (n: nat)
    ensures 1000 <= n < 11000
    ensures (n - 1000) as real <= r * 10000.0 < (n - 999) as real
  {
    (r * 10000.0).Floor + 1000
  }

  /** The order `handlePaymentSuccess` records; `today` is the formatted current date. */
  function NewOrder(cart: seq<ReviewItem>, user: Option<User>, r: Draw, today: string): (o: Order)
    ensures o.total == ShoppingBag.Subtotal(cart) + ShoppingBag.DeliveryFee(cart)
    ensures o.status == OrderReceived && o.items == cart && o.date == today
    ensures o.customerName == Some(CustomerName(user)) && o.deliveryPartner.None?
    ensures IsPrefix("ORD-", o.id)
  {
    Order("ORD-" + NatToString(OrderNumber(r)), today, CheckoutTotal(cart), OrderReceived, cart,
          Some(CustomerName(user)), None)
  }

  // ---------------------------------------------------------------------------
  // The cart stepper and removal (App.tsx:434, 436)

  /** `Math.max(1, q + delta)`. */
  function StepQuantity(q: int, delta: int): (r: int)
    ensures r >= 1
    ensures r == q + delta || (r == 1 && q + delta < 1)
  {
    if q + delta > 1 then q + delta else 1
  }

  function StepCart(cart: seq<ReviewItem>, id: string, delta: int): (r: seq<ReviewItem>)
    ensures |r| == |cart|
    ensures forall i :: 0 <= i < |cart| && cart[i].id != id ==> r[i] == cart[i]
    ensures forall i :: 0 <= i < |cart| && cart[i].id == id ==>
              r[i] == cart[i].(quantity := StepQuantity(cart[i].quantity, delta))
  {
    seq(|cart|, i requires 0 <= i < |cart| =>
      if cart[i].id == id then cart[i].(quantity := StepQuantity(cart[i].quantity, delta)) else cart[i])
  }

  /** The stepper keeps the cart invariant. */
  lemma StepKeepsValid(cart: seq<ReviewItem>, id: string, delta: int)
    requires CartValid(cart)
    ensures CartValid(StepCart(cart, id, delta))
  {
    var r := StepCart(cart, id, delta);
    forall x | x in r ensures x.quantity >= 1 {
      var i :| 0 <= i < |r| && r[i] == x;
      assert cart[i] in cart;
    }
  }

  /** Stepping up and then down by the same amount restores a line whose quantity the
      step down does not clamp. */
  lemma StepUndo(cart: seq<ReviewItem>, id: string, delta: int)
    requires delta >= 0 && CartValid(cart)
    ensures StepCart(StepCart(cart, id, delta), id, -delta) == cart
  {
    var r := StepCart(StepCart(cart, id, delta), id, -delta);
    forall i | 0 <= i < |cart| ensures r[i] == cart[i] {
      assert cart[i] in cart;
    }
  }

  function LineIdIsNot(id: string, x: ReviewItem): bool {
    x.id != id
  }

  /** `prev.filter(item => item.id !== id)`. */
  function RemoveCartLine(cart: seq<ReviewItem>, id: string): (r: seq<ReviewItem>)
    ensures forall x :: x in r <==> x in cart && x.id != id
    ensures forall x :: multiset(r)[x] == if x.id != id then multiset(cart)[x] else 0
    ensures IsSubseq(r, cart)
  {
    FilterIsSubseq(cart, (x: ReviewItem) => LineIdIsNot(id, x));
    Filter(cart, (x: ReviewItem) => LineIdIsNot(id, x))
  }

  /** Removal keeps the cart invariant. */
  lemma RemoveKeepsValid(cart: seq<ReviewItem>, id: string)
    requires CartValid(cart)
    ensures CartValid(RemoveCartLine(cart, id))
  {
    var keep := (x: ReviewItem) => LineIdIsNot(id, x);
    var r := RemoveCartLine(cart, id);
    assert r == Filter(cart, keep);
    assert Pairwise(cart, DifferentProducts);
    FilterPairwise(cart, keep, DifferentProducts);
    assert DistinctProductIds(r) by {
      forall i, j | 0 <= i < j < |r| ensures r[i].product.id != r[j].product.id {
        assert DifferentProducts(r[i], r[j]);
      }
    }
  }

  // ---------------------------------------------------------------------------
  // Admin collection handlers (App.tsx:232-267)

  /** `prev.map(x => x.id === updated.id ? updated : x)`, for products and recipes
      alike; `idOf` reads the id. */
  function ReplaceById<T>(db: seq<T>, updated: T, idOf: T -> string): (r: seq<T>)
    ensures |r| == |db|
    ensures forall i :: 0 <= i < |db| ==> idOf(r[i]) == idOf(db[i])
    ensures forall i :: 0 <= i < |db| ==> r[i] == (if idOf(db[i]) == idOf(updated) then updated else db[i])
  {
    seq(|db|, i requires 0 <= i < |db| => if idOf(db[i]) == idOf(updated) then updated else db[i])
  }

  function ProductId(p: Product): string {
    p.id
  }

  function RecipeId(r: Recipe): string {
    r.id
  }

  function ProductIdIsNot(id: string, p: Product): bool {
    p.id != id
  }

  /** `prev.filter(p => p.id !== id)`. */
  function DeleteProduct(db: seq<Product>, id: string): (r: seq<Product>)
    ensures forall p :: p in r <==> p in db && p.id != id
    ensures forall p :: multiset(r)[p] == if p.id != id then multiset(db)[p] else 0
    ensures IsSubseq(r, db)
    ensures |r| <= |db|
  {
    var keep := (p: Product) => ProductIdIsNot(id, p);
    FilterIsSubseq(db, keep);
    Filter(db, keep)
  }

  /** A replacement whose id is absent changes nothing. */
  lemma ReplaceAbsent<T>(db: seq<T>, updated: T, idOf: T -> string)
    requires forall i :: 0 <= i < |db| ==> idOf(db[i]) != idOf(updated)
    ensures ReplaceById(db, updated, idOf) == db
  {
  }

  /** `{ ...o, status, deliveryPartner: partner || o.deliveryPartner }` on the order with
      the given id. */
  function UpdateOrderStatus(orders: seq<Order>, orderId: string, status: OrderStatus, partner: Option<Partner>)
    : (r: seq<Order>)
    ensures |r| == |orders|
    ensures forall i :: 0 <= i < |orders| && orders[i].id != orderId ==> r[i] == orders[i]
    ensures forall i :: 0 <= i < |orders| && orders[i].id == orderId ==>
              r[i].status == status
              && r[i].deliveryPartner == (if partner.Some? then partner else orders[i].deliveryPartner)
              && r[i] == orders[i].(status := r[i].status, deliveryPartner := r[i].deliveryPartner)
  {
    seq(|orders|, i requires 0 <= i < |orders| =>
      if orders[i].id == orderId
      then orders[i].(status := status,
                      deliveryPartner := if partner.Some? then partner else orders[i].deliveryPartner)
      else orders[i])
  }

  function RecipeIdIsNot(id: string, r: Recipe): bool {
    r.id != id
  }

  function DeleteRecipe(db: seq<Recipe>, id: string): (r: seq<Recipe>)
    ensures forall x :: x in r <==> x in db && x.id != id
    ensures forall x :: multiset(r)[x] == if x.id != id then multiset(db)[x] else 0
    ensures IsSubseq(r, db)
  {
    var keep := (x: Recipe) => RecipeIdIsNot(id, x);
    FilterIsSubseq(db, keep);
    Filter(db, keep)
  }

  /** Whether a recipe shows as a favourite (`isFavorite` absent counts as false). */
  predicate IsFavorite(r: Recipe) {
    r.isFavorite == Some(true)
  }

  /** `{ ...r, isFavorite: !r.isFavorite }`. */
  function FlipFavorite(r: Recipe): (f: Recipe)
    ensures IsFavorite(f) == !IsFavorite(r)
    ensures f.isFavorite.Some?
    ensures f == r.(isFavorite := f.isFavorite)
  {
    r.(isFavorite := Some(!(r.isFavorite == Some(true))))
  }

  function ToggleFavorite(db: seq<Recipe>, recipeId: string): (r: seq<Recipe>)
    ensures |r| == |db|
    ensures forall i :: 0 <= i < |db| && db[i].id != recipeId ==> r[i] == db[i]
    ensures forall i :: 0 <= i < |db| && db[i].id == recipeId ==>
              IsFavorite(r[i]) == !IsFavorite(db[i]) && r[i] == db[i].(isFavorite := r[i].isFavorite)
  {
    seq(|db|, i requires 0 <= i < |db| => if db[i].id == recipeId then FlipFavorite(db[i]) else db[i])
  }

  /** Toggling twice shows every recipe as it was. */
  lemma {:induction false} ToggleTwice(db: seq<Recipe>, recipeId: string)
    ensures var r := ToggleFavorite(ToggleFavorite(db, recipeId), recipeId);
            |r| == |db| && forall i :: 0 <= i < |db| ==> IsFavorite(r[i]) == IsFavorite(db[i])
  {
    var once := ToggleFavorite(db, recipeId);
    var twice := ToggleFavorite(once, recipeId);
    forall i | 0 <= i < |db| ensures IsFavorite(twice[i]) == IsFavorite(db[i]) {
      assert once[i].id == db[i].id;
    }
  }

  // ---------------------------------------------------------------------------
  // The component state

  const AvatarUrl: string :=
    "https://images.unsplash.com/photo-1494790108377-be9c29b29330?auto=format&fit=crop&q=80&w=150&h=150"

  /** The order the application starts with (App.tsx:165-174). */
  function InitialOrders(): (r: seq<Order>)
    ensures |r| == 1 && r[0].id == "ORD-7782" && r[0].status == Delivered && r[0].items == []
  {
    [Order("ORD-7782", "Oct 24, 2023", 14.10, Delivered, [], Some("Tester User"), None)]
  }

  /** The routing targets a tab change must guard: a user is needed to enter them. */
  predicate NeedsUser(tab: Tab) {
    tab == OrdersTab || tab == ProfileTab
  }

  class AppState {
    var currentUser: Option<User>
    var isAuthModalOpen: bool
    var productsDatabase: seq<Product>
    var recipesDatabase: seq<Recipe>
    var globalOrders: seq<Order>
    var activeTab: Tab
    var homeView: HomeView
    var shopView: ShopView
    var isCartOpen: bool
    var extractedImage: Option<string>
    var reviewItems: seq<ExtendedReviewItem>
    var cartItems: seq<ReviewItem>
    var selectedReviewItem: Option<ExtendedReviewItem>
    var selectedRecipe: Option<Recipe>
    var lastOrder: Option<(seq<ReviewItem>, real)>
    /** The six Coles catalogs the resolver scans. */
    const catalogs: Catalogs

    /** The initial state; the products database and the recipes are given. */
    constructor (products: seq<Product>, recipes: seq<Recipe>, c: Catalogs)
      ensures currentUser.None? && !isAuthModalOpen
      ensures productsDatabase == products && recipesDatabase == recipes && catalogs == c
      ensures globalOrders == InitialOrders()
      ensures activeTab == HomeTab && homeView == Dashboard && shopView == Cart && !isCartOpen
      ensures extractedImage.None? && reviewItems == [] && cartItems == []
      ensures selectedReviewItem.None? && selectedRecipe.None? && lastOrder.None?
    {
      currentUser := None;
      isAuthModalOpen := false;
      productsDatabase := products;
      recipesDatabase := recipes;
      catalogs := c;
      globalOrders := InitialOrders();
      activeTab := HomeTab;
      homeView := Dashboard;
      shopView := Cart;
      isCartOpen := false;
      extractedImage := None;
      reviewItems := [];
      cartItems := [];
      selectedReviewItem := None;
      selectedRecipe := None;
      lastOrder := None;
    }

    /** `handleLogin`; `token` is the random part of the user id. */
    method HandleLogin(name: string, email: string, role: UserRole, token: string)
      modifies this`currentUser, this`isAuthModalOpen
      ensures currentUser == Some(User("u-" + token, name, email, AvatarUrl, role))
      ensures !isAuthModalOpen
    {
      currentUser := Some(User("u-" + token, name, email, AvatarUrl, role));
      isAuthModalOpen := false;
    }

    method HandleLogout()
      modifies this`currentUser, this`homeView, this`activeTab
      ensures currentUser.None? && homeView == Dashboard && activeTab == HomeTab
    {
      currentUser := None;
      homeView := Dashboard;
      activeTab := HomeTab;
    }

    /** `handleTabChange`: the Orders and Profile tabs go through `requireAuth`. */
    method HandleTabChange(tab: Tab)
      modifies this`activeTab, this`isAuthModalOpen
      ensures NeedsUser(tab) && currentUser.None? ==>
                activeTab == old(activeTab) && isAuthModalOpen
      ensures !NeedsUser(tab) || currentUser.Some? ==>
                activeTab == tab && isAuthModalOpen == old(isAuthModalOpen)
    {
      if NeedsUser(tab) {
        if currentUser.Some? {
          activeTab := tab;
        } else {
          isAuthModalOpen := true;
        }
      } else {
        activeTab := tab;
      }
    }

    method HandleAdminUpdateProduct(updated: Product)
      modifies this`productsDatabase
      ensures productsDatabase == ReplaceById(old(productsDatabase), updated, ProductId)
    {
      productsDatabase := ReplaceById(productsDatabase, updated, ProductId);
    }

    /** A new product goes to the front of the database. */
    method HandleAdminAddProduct(p: Product)
      modifies this`productsDatabase
      ensures productsDatabase == [p] + old(productsDatabase)
    {
      productsDatabase := [p] + productsDatabase;
    }

    method HandleAdminDeleteProduct(id: string)
      modifies this`productsDatabase
      ensures productsDatabase == DeleteProduct(old(productsDatabase), id)
    {
      productsDatabase := DeleteProduct(productsDatabase, id);
    }

    method HandleAdminUpdateOrderStatus(orderId: string, status: OrderStatus, partner: Option<Partner>)
      modifies this`globalOrders
      ensures globalOrders == UpdateOrderStatus(old(globalOrders), orderId, status, partner)
    {
      globalOrders := UpdateOrderStatus(globalOrders, orderId, status, partner);
    }

    /** A new recipe goes to the end of the list. */
    method HandleAdminAddRecipe(r: Recipe)
      modifies this`recipesDatabase
      ensures recipesDatabase == old(recipesDatabase) + [r]
    {
      recipesDatabase := recipesDatabase + [r];
    }

    method HandleAdminUpdateRecipe(updated: Recipe)
      modifies this`recipesDatabase
      ensures recipesDatabase == ReplaceById(old(recipesDatabase), updated, RecipeId)
    {
      recipesDatabase := ReplaceById(recipesDatabase, updated, RecipeId);
    }

    method HandleAdminDeleteRecipe(id: string)
      modifies this`recipesDatabase
      ensures recipesDatabase == DeleteRecipe(old(recipesDatabase), id)
    {
      recipesDatabase := DeleteRecipe(recipesDatabase, id);
    }

    /** `handleToggleFavorite`: the recipe list, and the open recipe when it is the one
        toggled. */
    method HandleToggleFavorite(recipeId: string)
      modifies this`recipesDatabase, this`selectedRecipe
      ensures recipesDatabase == ToggleFavorite(old(recipesDatabase), recipeId)
      ensures old(selectedRecipe).Some? && old(selectedRecipe).value.id == recipeId ==>
                selectedRecipe == Some(FlipFavorite(old(selectedRecipe).value))
      ensures !(old(selectedRecipe).Some? && old(selectedRecipe).value.id == recipeId) ==>
                selectedRecipe == old(selectedRecipe)
    {
      recipesDatabase := ToggleFavorite(recipesDatabase, recipeId);
      if selectedRecipe.Some? && selectedRecipe.value.id == recipeId {
        selectedRecipe := Some(FlipFavorite(selectedRecipe.value));
      }
    }

    /** `handleAnalysisComplete`; `roll(i)` holds the draws of the i-th lookup. */
    method HandleAnalysisComplete(ingredients: seq<Ingredient>, imagePreview: string, roll: nat -> Draws)
      modifies this`reviewItems, this`extractedImage, this`selectedRecipe, this`homeView
      ensures reviewItems == AnalysisItems(productsDatabase, catalogs, ingredients, roll)
      ensures extractedImage == Some(imagePreview) && selectedRecipe.None? && homeView == Review
    {
      reviewItems := AnalysisItems(productsDatabase, catalogs, ingredients, roll);
      extractedImage := Some(imagePreview);
      selectedRecipe := None;
      homeView := Review;
    }

    /** `handleAddToCart`: behind `requireAuth`, the incoming items are merged into a
        copy of the cart one by one, then the cart opens (leaving the review and recipe
        screens for the dashboard). */
    method HandleAddToCart(items: seq<ReviewItem>)
      modifies this`cartItems, this`homeView, this`isCartOpen, this`isAuthModalOpen
      ensures currentUser.None? ==>
                cartItems == old(cartItems) && homeView == old(homeView)
                && isCartOpen == old(isCartOpen) && isAuthModalOpen
      ensures currentUser.Some? ==>
                cartItems == MergeAll(old(cartItems), items) && isCartOpen
                && isAuthModalOpen == old(isAuthModalOpen)
                && homeView == (if old(homeView) == Review || old(homeView) == RecipeDetail
                                then Dashboard else old(homeView))
      ensures CartValid(old(cartItems)) ==> CartValid(cartItems)
    {
      if currentUser.None? {
        isAuthModalOpen := true;
        return;
      }
      var newCart := MergeItems(cartItems, items);
      if CartValid(cartItems) {
        MergeAllKeepsValid(cartItems, items);
      }
      cartItems := newCart;
      if homeView == Review || homeView == RecipeDetail {
        homeView := Dashboard;
        isCartOpen := true;
      } else {
        isCartOpen := true;
      }
    }

    /** `handleSingleItemPurchase`: when a review line is being edited the purchase
        rewrites that line and returns to the review list; otherwise the item goes to
        the cart. */
    method HandleSingleItemPurchase(updated: ReviewItem)
      modifies this`reviewItems, this`homeView, this`cartItems, this`isCartOpen, this`isAuthModalOpen
      ensures currentUser.None? ==>
                reviewItems == old(reviewItems) && cartItems == old(cartItems)
                && homeView == old(homeView) && isCartOpen == old(isCartOpen) && isAuthModalOpen
      ensures currentUser.Some? && selectedReviewItem.Some? ==>
                reviewItems == ApplyPurchase(old(reviewItems), selectedReviewItem.value.id, updated)
                && homeView == Review && cartItems == old(cartItems)
                && isCartOpen == old(isCartOpen) && isAuthModalOpen == old(isAuthModalOpen)
      ensures currentUser.Some? && selectedReviewItem.None? ==>
                cartItems == MergeAll(old(cartItems), [updated]) && isCartOpen
                && reviewItems == old(reviewItems) && isAuthModalOpen == old(isAuthModalOpen)
                && homeView == (if old(homeView) == Review || old(homeView) == RecipeDetail
                                then Dashboard else old(homeView))
      ensures CartValid(old(cartItems)) ==> CartValid(cartItems)
    {
      if currentUser.None? {
        isAuthModalOpen := true;
        return;
      }
      if selectedReviewItem.Some? {
        reviewItems := ApplyPurchase(reviewItems, selectedReviewItem.value.id, updated);
        homeView := Review;
      } else {
        HandleAddToCart([updated]);
      }
    }

    /** `handlePaymentSuccess`: the order is recorded at the front of the order list,
        remembered as the last order, and the cart is emptied. `r` is the draw behind
        the order number and `today` the formatted date. */
    method HandlePaymentSuccess(r: Draw, today: string)
      modifies this`globalOrders, this`lastOrder, this`cartItems, this`shopView
      ensures globalOrders == [NewOrder(old(cartItems), currentUser, r, today)] + old(globalOrders)
      ensures lastOrder == Some((old(cartItems), ShoppingBag.Total(old(cartItems))))
      ensures cartItems == [] && shopView == Success
    {
      var finalTotal := CheckoutTotal(cartItems);
      var newOrder := NewOrder(cartItems, currentUser, r, today);
      globalOrders := [newOrder] + globalOrders;
      lastOrder := Some((cartItems, finalTotal));
      cartItems := [];
      shopView := Success;
    }

    /** The bag's quantity stepper. */
    method CartUpdateQuantity(id: string, delta: int)
      modifies this`cartItems
      ensures cartItems == StepCart(old(cartItems), id, delta)
      ensures CartValid(old(cartItems)) ==> CartValid(cartItems)
    {
      if CartValid(cartItems) {
        StepKeepsValid(cartItems, id, delta);
      }
      cartItems := StepCart(cartItems, id, delta);
    }

    /** The bag's remove button. */
    method CartRemoveItem(id: string)
      modifies this`cartItems
      ensures cartItems == RemoveCartLine(old(cartItems), id)
      ensures CartValid(old(cartItems)) ==> CartValid(cartItems)
    {
      if CartValid(cartItems) {
        RemoveKeepsValid(cartItems, id);
      }
      cartItems := RemoveCartLine(cartItems, id);
    }

    /** The recipe screen's "add all": its items become the review list, all selected. */
    method HandleAddRecipeToCart(items: seq<ReviewItem>)
      modifies this`reviewItems, this`homeView
      ensures |reviewItems| == |items|
      ensures forall i :: 0 <= i < |items| ==> reviewItems[i] == Extend(items[i], true)
      ensures homeView == Review
    {
      reviewItems := seq(|items|, i requires 0 <= i < |items| => Extend(items[i], true));
      homeView := Review;
    }
  }
}
