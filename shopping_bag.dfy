/** The order summary of the bag screen (components/ShoppingBagScreen.tsx): subtotal,
    threshold delivery fee and total over every line of the cart, the lines with a
    positive quantity, and the payment-method guard on confirming the order. */
module ShoppingBag {
  import opened Types
  import opened Seqs

  /** Orders whose subtotal is strictly above this amount are delivered free. */
  const FreeDeliveryAbove: real := 50.0
  const StandardDeliveryFee: real := 3.99

  /** Sum of price × quantity over all lines. */
  function Subtotal(items: seq<ReviewItem>): (r: real)
    ensures items == [] ==> r == 0.0
    ensures (forall i :: 0 <= i < |items| ==> items[i].product.price >= 0.0 && items[i].quantity >= 0)
      ==> r >= 0.0
  {
    LineTotalNonNegativeIf(items);
    LineTotal(items)
  }

  lemma LineTotalNonNegativeIf(items: seq<ReviewItem>)
    ensures (forall i :: 0 <= i < |items| ==> items[i].product.price >= 0.0 && items[i].quantity >= 0)
      ==> LineTotal(items) >= 0.0
  {
    if forall i :: 0 <= i < |items| ==> items[i].product.price >= 0.0 && items[i].quantity >= 0 {
      LineTotalNonNegative(items);
    }
  }

  /** Free for an empty bag or a subtotal over 50, otherwise the standard fee. */
  function DeliveryFee(items: seq<ReviewItem>): (r: real)
    ensures r == 0.0 <==> items == [] || Subtotal(items) > FreeDeliveryAbove
    ensures r != 0.0 ==> r == StandardDeliveryFee
  {
    if |items| == 0 then 0.0 else if Subtotal(items) > FreeDeliveryAbove then 0.0 else StandardDeliveryFee
  }

  function Total(items: seq<ReviewItem>): (r: real)
    ensures r >= Subtotal(items)
    ensures r - Subtotal(items) == DeliveryFee(items)
  {
    Subtotal(items) + DeliveryFee(items)
  }

  /** A bag whose subtotal is exactly 50 still pays the standard fee. */
  lemma FeeAtThreshold(items: seq<ReviewItem>)
    requires items != [] && Subtotal(items) == FreeDeliveryAbove
    ensures Total(items) == 53.99
  {
  }

  /** The lines with a positive quantity, in order. */
  function ValidItems(items: seq<ReviewItem>): (r: seq<ReviewItem>)
    ensures forall x :: x in r <==> x in items && x.quantity > 0
    ensures forall x :: multiset(r)[x] == if x.quantity > 0 then multiset(items)[x] else 0
    ensures IsSubseq(r, items)
  {
    FilterIsSubseq(items, (x: ReviewItem) => x.quantity > 0);
    Filter(items, (x: ReviewItem) => x.quantity > 0)
  }

  datatype PaymentKind = Card | PromptPay | CashOnDelivery

  /** The state the bag screen keeps while the customer picks how to pay. */
  class BagScreen {
    var paymentMethod: Option<PaymentKind>
    var isProcessing: bool

    constructor ()
      ensures paymentMethod == None && !isProcessing
    {
      paymentMethod := None;
      isProcessing := false;
    }

    method SelectPaymentMethod(kind: PaymentKind)
      modifies this`paymentMethod
      ensures paymentMethod == Some(kind)
    {
      paymentMethod := Some(kind);
    }

    /** The confirm button's `disabled` attribute: no method chosen, or processing. */
    function ConfirmDisabled(): bool
      reads this
    {
      paymentMethod.None? || isProcessing
    }

    /** `handleConfirmOrder`: without a payment method nothing happens; otherwise processing
        starts. The state is the one while the delay runs: `isProcessing` is set, and
        `confirmed` says whether the timer's confirmation callback will run. The timer's
        reset of `isProcessing` to false is not modelled. */
    method HandleConfirmOrder() returns (confirmed: bool)
      modifies this`isProcessing
      ensures confirmed <==> paymentMethod.Some?
      ensures isProcessing == (old(isProcessing) || confirmed)
      ensures confirmed ==> ConfirmDisabled()
      ensures !old(ConfirmDisabled()) ==> confirmed
    {
      if paymentMethod.None? {
        return false;
      }
      isProcessing := true;
      confirmed := true;
    }

    /** A click on the confirm button: a disabled button ignores the click, so an order
        already under way is not confirmed a second time. */
    method ClickConfirm() returns (confirmed: bool)
      modifies this`isProcessing
      ensures confirmed <==> !old(ConfirmDisabled())
      ensures isProcessing == (old(isProcessing) || confirmed)
      ensures confirmed ==> ConfirmDisabled()
    {
      if ConfirmDisabled() {
        return false;
      }
      confirmed := HandleConfirmOrder();
    }
  }
}
