/** The review list of detected ingredients (components/IngredientReviewScreen.tsx):
    selection toggling, the quantity stepper, swapping a line's product for an
    alternative, deletion, "continue with selected", the search filter and the
    selected-lines summary. Each list operation yields the list the screen hands
    to `onUpdateItems`; the modal and search state is the class `ReviewScreen`. */
module IngredientReview {
  import opened Types
  import opened Text
  import opened Seqs
  import opened Catalog
  import opened CatalogData

  /** `{ ...item, isSelected: !item.isSelected }` on the lines with the given id. */
  function ToggleSelection(items: seq<ExtendedReviewItem>, id: string): (r: seq<ExtendedReviewItem>)
    ensures |r| == |items|
    ensures forall i :: 0 <= i < |items| && items[i].id != id ==> r[i] == items[i]
    ensures forall i :: 0 <= i < |items| && items[i].id == id ==>
              r[i].isSelected == !items[i].isSelected && r[i].Base() == items[i].Base()
  {
    seq(|items|, i requires 0 <= i < |items| =>
      if items[i].id == id then items[i].(isSelected := !items[i].isSelected) else items[i])
  }

  /** Toggling the same line twice gives back the list. */
  lemma ToggleTwice(items: seq<ExtendedReviewItem>, id: string)
    ensures ToggleSelection(ToggleSelection(items, id), id) == items
  {
    var r := ToggleSelection(ToggleSelection(items, id), id);
    forall i | 0 <= i < |items| ensures r[i] == items[i] {
      assert ToggleSelection(items, id)[i].id == items[i].id;
    }
  }

  /** `Math.max(1, item.quantity + delta)` on the lines with the given id. */
  function UpdateQuantity(items: seq<ExtendedReviewItem>, id: string, delta: int): (r: seq<ExtendedReviewItem>)
    ensures |r| == |items|
    ensures forall i :: 0 <= i < |items| && items[i].id != id ==> r[i] == items[i]
    ensures forall i :: 0 <= i < |items| && items[i].id == id ==>
              r[i] == items[i].(quantity := r[i].quantity) && r[i].quantity >= 1
              && (r[i].quantity == items[i].quantity + delta || (r[i].quantity == 1 && items[i].quantity + delta < 1))
  {
    seq(|items|, i requires 0 <= i < |items| =>
      if items[i].id == id
      then items[i].(quantity := if items[i].quantity + delta > 1 then items[i].quantity + delta else 1)
      else items[i])
  }

  predicate QuantitiesAtLeastOne(items: seq<ExtendedReviewItem>) {
    forall i :: 0 <= i < |items| ==> items[i].quantity >= 1
  }

  /** Quantities that start at one or more stay there under the stepper. */
  lemma UpdateKeepsQuantities(items: seq<ExtendedReviewItem>, id: string, delta: int)
    requires QuantitiesAtLeastOne(items)
    ensures QuantitiesAtLeastOne(UpdateQuantity(items, id, delta))
  {
    var r := UpdateQuantity(items, id, delta);
    forall i | 0 <= i < |r| ensures r[i].quantity >= 1 {
      if items[i].id != id {
        assert r[i] == items[i];
      }
    }
  }

  /** The lines with the given id take the chosen product; nothing else changes. */
  function ReplaceLineProduct(items: seq<ExtendedReviewItem>, id: string, p: Product): (r: seq<ExtendedReviewItem>)
    ensures |r| == |items|
    ensures forall i :: 0 <= i < |items| && items[i].id != id ==> r[i] == items[i]
    ensures forall i :: 0 <= i < |items| && items[i].id == id ==>
              r[i].product == p && r[i] == items[i].(product := p)
  {
    seq(|items|, i requires 0 <= i < |items| =>
      if items[i].id == id then items[i].(product := p) else items[i])
  }

  function IdIsNot(id: string, x: ExtendedReviewItem): bool {
    x.id != id
  }

  /** `handleDeleteItem`: every line with the id goes, the rest keep their order. */
  function DeleteItem(items: seq<ExtendedReviewItem>, id: string): (r: seq<ExtendedReviewItem>)
    ensures forall x :: x in r <==> x in items && x.id != id
    ensures forall x: ExtendedReviewItem :: x.id != id ==> multiset(r)[x] == multiset(items)[x]
    ensures IsSubseq(r, items)
  {
    FilterIsSubseq(items, (x: ExtendedReviewItem) => IdIsNot(id, x));
    Filter(items, (x: ExtendedReviewItem) => IdIsNot(id, x))
  }

  function IsSelected(x: ExtendedReviewItem): bool {
    x.isSelected
  }

  /** `items.filter(item => item.isSelected)`. */
  function SelectedItems(items: seq<ExtendedReviewItem>): (r: seq<ExtendedReviewItem>)
    ensures forall x :: x in r <==> x in items && x.isSelected
    ensures forall x: ExtendedReviewItem :: x.isSelected ==> multiset(r)[x] == multiset(items)[x]
    ensures IsSubseq(r, items)
  {
    FilterIsSubseq(items, IsSelected);
    Filter(items, IsSelected)
  }

  /** The selected lines as cart lines (without the selection flag). */
  function Bases(items: seq<ExtendedReviewItem>): (r: seq<ReviewItem>)
    ensures |r| == |items|
    ensures forall i :: 0 <= i < |items| ==> r[i] == items[i].Base()
  {
    seq(|items|, i requires 0 <= i < |items| => items[i].Base())
  }

  /** `handleContinue`: the selected lines, in their original order, go to the cart. */
  function Continue(items: seq<ExtendedReviewItem>): (r: seq<ReviewItem>)
    ensures |r| == |SelectedItems(items)|
    ensures forall i :: 0 <= i < |r| ==> r[i] == SelectedItems(items)[i].Base()
    ensures forall x :: x in items && x.isSelected ==> x.Base() in r
    ensures forall y :: y in r ==> exists x :: x in items && x.isSelected && x.Base() == y
  {
    var sel := SelectedItems(items);
    BasesMembers(sel);
    Bases(sel)
  }

  /** Every line's flagless form is among the projected lines, and every projected
      line comes from one of the lines. */
  lemma BasesMembers(sel: seq<ExtendedReviewItem>)
    ensures forall x :: x in sel ==> x.Base() in Bases(sel)
    ensures forall y :: y in Bases(sel) ==> exists x :: x in sel && x.Base() == y
  {
    var r := Bases(sel);
    forall x | x in sel ensures x.Base() in r {
      var i :| 0 <= i < |sel| && sel[i] == x;
      assert r[i] == x.Base();
    }
    forall y | y in r ensures exists x :: x in sel && x.Base() == y {
      var i :| 0 <= i < |r| && r[i] == y;
      assert sel[i] in sel && sel[i].Base() == y;
    }
  }

  /** The lines handed on keep the order they had in the review list. */
  lemma ContinueKeepsOrder(items: seq<ExtendedReviewItem>)
    ensures IsSubseq(Continue(items), Bases(items))
  {
    BasesKeepSubseq(SelectedItems(items), items);
  }

  /** Dropping the flag from a subsequence gives a subsequence of the flagless lines. */
  lemma {:induction false} BasesKeepSubseq(sub: seq<ExtendedReviewItem>, s: seq<ExtendedReviewItem>)
    requires IsSubseq(sub, s)
    ensures IsSubseq(Bases(sub), Bases(s))
    decreases |s|
  {
    if sub != [] {
      var bs, bt := Bases(sub), Bases(s);
      assert bt[1..] == Bases(s[1..]);
      if sub[0] == s[0] {
        BasesKeepSubseq(sub[1..], s[1..]);
        assert bs[1..] == Bases(sub[1..]);
      } else {
        BasesKeepSubseq(sub, s[1..]);
        if bs[0] == bt[0] {
          SubseqTail(bs, bt[1..]);
        }
      }
    }
  }

  function NameHasQuery(lowerQuery: string, x: ExtendedReviewItem): bool {
    Contains(Lower(x.product.name), lowerQuery)
  }

  /** `filteredItems`: the lines whose lower-cased product name contains the
      lower-cased search query. */
  function FilteredItems(items: seq<ExtendedReviewItem>, searchQuery: string): (r: seq<ExtendedReviewItem>)
    ensures forall x :: x in r <==> x in items && Contains(Lower(x.product.name), Lower(searchQuery))
    ensures forall x :: multiset(r)[x] ==
              if Contains(Lower(x.product.name), Lower(searchQuery)) then multiset(items)[x] else 0
    ensures IsSubseq(r, items)
  {
    FilterIsSubseq(items, (x: ExtendedReviewItem) => NameHasQuery(Lower(searchQuery), x));
    Filter(items, (x: ExtendedReviewItem) => NameHasQuery(Lower(searchQuery), x))
  }

  /** An empty search shows every line. */
  lemma EmptySearchKeepsAll(items: seq<ExtendedReviewItem>)
    ensures FilteredItems(items, "") == items
  {
    forall i | 0 <= i < |items| ensures NameHasQuery(Lower(""), items[i]) {
      ContainsEmpty(Lower(items[i].product.name));
    }
  }

  /** `selectedCount`. */
  function SelectedCount(items: seq<ExtendedReviewItem>): (n: nat)
    ensures n == Count(items, IsSelected)
    ensures n <= |items|
  {
    CountIsFilterLength(items, IsSelected);
    |SelectedItems(items)|
  }

  /** `totalAmount`: price × quantity summed over the selected lines. */
  function TotalAmount(items: seq<ExtendedReviewItem>): real {
    LineTotal(Bases(SelectedItems(items)))
  }

  /** The total is additive over the list, and a single line contributes its price ×
      quantity exactly when it is selected. */
  lemma TotalAmountConcat(a: seq<ExtendedReviewItem>, b: seq<ExtendedReviewItem>)
    ensures TotalAmount(a + b) == TotalAmount(a) + TotalAmount(b)
  {
    FilterConcat(a, b, IsSelected);
    var sa, sb := SelectedItems(a), SelectedItems(b);
    assert SelectedItems(a + b) == sa + sb;
    BasesConcat(sa, sb);
    LineTotalConcat(Bases(sa), Bases(sb));
  }

  lemma BasesConcat(a: seq<ExtendedReviewItem>, b: seq<ExtendedReviewItem>)
    ensures Bases(a + b) == Bases(a) + Bases(b)
  {
    var l, r := Bases(a + b), Bases(a) + Bases(b);
    forall i | 0 <= i < |l| ensures l[i] == r[i] {
      if i < |a| { assert (a + b)[i] == a[i]; } else { assert (a + b)[i] == b[i - |a|]; }
    }
  }

  lemma TotalAmountSingle(x: ExtendedReviewItem)
    ensures TotalAmount([x]) == if x.isSelected then x.product.price * (x.quantity as real) else 0.0
  {
    var sel := SelectedItems([x]);
    assert [x][1..] == [];
    assert Filter([x][1..], IsSelected) == [];
    if x.isSelected {
      assert sel == [x];
      var bs := Bases(sel);
      assert bs == [x.Base()];
      assert bs[..0] == [];
      assert LineTotal(bs) == LineTotal(bs[..0]) + x.product.price * (x.quantity as real);
    } else {
      assert sel == [];
    }
  }

  /** The state the review screen keeps for its search box and its "change product"
      modal. */
  class ReviewScreen {
    var searchQuery: string
    var isAlternativesOpen: bool
    var activeItemForChange: Option<ExtendedReviewItem>
    var alternativeProducts: seq<Product>

    constructor ()
      ensures searchQuery == "" && !isAlternativesOpen
      ensures activeItemForChange.None? && alternativeProducts == []
    {
      searchQuery := "";
      isAlternativesOpen := false;
      activeItemForChange := None;
      alternativeProducts := [];
    }

    method SetSearchQuery(q: string)
      modifies this`searchQuery
      ensures searchQuery == q
    {
      searchQuery := q;
    }

    /** `handleOpenAlternatives`: five products generated from the line's ingredient
        name, the i-th with the draws `roll(i)`. */
    method HandleOpenAlternatives(item: ExtendedReviewItem, c: Catalogs, roll: nat -> Draws)
      modifies this`activeItemForChange, this`alternativeProducts, this`isAlternativesOpen
      ensures activeItemForChange == Some(item) && isAlternativesOpen
      ensures |alternativeProducts| == 5
      ensures forall i :: 0 <= i < 5 ==> alternativeProducts[i] == Resolve(c, item.ingredient.name, roll(i))
    {
      activeItemForChange := Some(item);
      alternativeProducts := seq(5, i requires 0 <= i < 5 => Resolve(c, item.ingredient.name, roll(i)));
      isAlternativesOpen := true;
    }

    /** `handleSelectAlternative`: without an active line nothing happens (`None`);
        otherwise the list with that line's product replaced is returned and the modal
        closes. */
    method HandleSelectAlternative(items: seq<ExtendedReviewItem>, newProduct: Product)
      returns (updated: Option<seq<ExtendedReviewItem>>)
      modifies this`isAlternativesOpen, this`activeItemForChange
      ensures old(activeItemForChange).None? ==>
                updated.None? && isAlternativesOpen == old(isAlternativesOpen) && activeItemForChange.None?
      ensures old(activeItemForChange).Some? ==>
                updated == Some(ReplaceLineProduct(items, old(activeItemForChange).value.id, newProduct))
                && !isAlternativesOpen && activeItemForChange.None?
    {
      if activeItemForChange.None? {
        return None;
      }
      updated := Some(ReplaceLineProduct(items, activeItemForChange.value.id, newProduct));
      isAlternativesOpen := false;
      activeItemForChange := None;
    }
  }
}
