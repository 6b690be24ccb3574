/** The cart modal's checkout flow (components/CartModal.tsx): the bag
    total, the three steps CART, GIFT and PAYMENT with their guards, and the
    finish that clears the cart and reports the order. */
module Checkout {
  import opened Types
  import opened Seqs
  import opened Shop

  datatype Step = CartStep | GiftStep | PaymentStep

  const OrderPlacedMessage: string := "Order placed successfully! 🤎"
  const GiftOrderPlacedMessage: string := "Order & Gift Note placed successfully! 🎁"

  /** The reduce over the cart, summing line prices left to right from 0. */
  function Total(cart: seq<CartItem>): int {
    if cart == [] then 0 else Total(cart[..|cart| - 1]) + cart[|cart| - 1].item.price
  }

  /** The total of two carts side by side is the sum of their totals. */
  lemma {:induction false} TotalConcat(a: seq<CartItem>, b: seq<CartItem>)
    ensures Total(a + b) == Total(a) + Total(b)
  {
    if b != [] {
      var b' := b[..|b| - 1];
      TotalConcat(a, b');
      assert (a + b)[..|a + b| - 1] == a + b';
    } else {
      assert a + b == a;
    }
  }

  /** Adding a line raises the total by that line's price. */
  lemma TotalAppend(cart: seq<CartItem>, line: CartItem)
    ensures Total(cart + [line]) == Total(cart) + line.item.price
  {
    TotalConcat(cart, [line]);
  }

  lemma TotalCons(line: CartItem, cart: seq<CartItem>)
    ensures Total([line] + cart) == line.item.price + Total(cart)
  {
    TotalConcat([line], cart);
  }

  /** With no negative prices the total is never negative. */
  lemma {:induction false} TotalNonNegative(cart: seq<CartItem>)
    requires forall i :: 0 <= i < |cart| ==> cart[i].item.price >= 0
    ensures Total(cart) >= 0
  {
    if cart != [] {
      TotalNonNegative(cart[..|cart| - 1]);
    }
  }

  /** Taking the line at `k` out of a cart lowers the total by its price. */
  lemma TotalWithout(cart: seq<CartItem>, k: nat)
    requires k < |cart|
    ensures Total(cart[..k] + cart[k + 1..]) == Total(cart) - cart[k].item.price
  {
    var pre, post := cart[..k], cart[k + 1..];
    assert cart == (pre + [cart[k]]) + post;
    TotalConcat(pre + [cart[k]], post);
    TotalAppend(pre, cart[k]);
    TotalConcat(pre, post);
  }

  /** Removing a line id the cart carries exactly once lowers the total by
      that line's price. */
  lemma TotalAfterRemove(cart: seq<CartItem>, k: nat)
    requires DistinctBy(cart, CartIdOf) && k < |cart|
    ensures Total(RemoveLines(cart, cart[k].cartId)) == Total(cart) - cart[k].item.price
  {
    RemovePresentLine(cart, k);
    TotalWithout(cart, k);
  }

  /** The 'Proceed to Checkout' button is enabled exactly when the bag holds
      something. */
  predicate ProceedEnabled(cart: seq<CartItem>) {
    |cart| > 0
  }

  /** 'Continue to Payment' is disabled for a gift without a message or
      without a recipient (an empty string is falsy). */
  predicate ContinueBlocked(g: GiftOptions) {
    g.isGift && (g.message == "" || g.recipientName == "")
  }

  /** The toast text the finish shows. */
  function FinishMessage(g: GiftOptions): (message: string)
    ensures message == GiftOrderPlacedMessage <==> g.isGift
    ensures message == OrderPlacedMessage <==> !g.isGift
  {
    if g.isGift then GiftOrderPlacedMessage else OrderPlacedMessage
  }

  /** The cart modal's open flag (owned by the page) together with the
      modal's own step and gift-note state. The modal stays mounted while
      closed, so its state survives a close that does not reset it; every
      close path in the modal resets it. */
  class CheckoutFlow {
    var isOpen: bool
    var step: Step
    var giftOptions: GiftOptions

    /** The payment step is only reached with a complete gift note, and a
        closed modal rests on the cart step with blank gift options. */
    ghost predicate Valid()
      reads this
    {
      && (step == PaymentStep ==> !ContinueBlocked(giftOptions))
      && (!isOpen ==> step == CartStep && giftOptions == DefaultGiftOptions)
    }

    constructor()
      ensures Valid()
      ensures !isOpen && step == CartStep && giftOptions == DefaultGiftOptions
    {
      isOpen := false;
      step := CartStep;
      giftOptions := DefaultGiftOptions;
    }

    /** The navbar's bag button. */
    method Open()
      requires Valid()
      modifies this
      ensures Valid()
      ensures isOpen && step == old(step) && giftOptions == old(giftOptions)
    {
      isOpen := true;
    }

    /** 'Proceed to Checkout': ignored while the bag is empty. */
    method Proceed(cart: seq<CartItem>)
      requires Valid() && isOpen && step == CartStep
      modifies this
      ensures Valid()
      ensures step == (if ProceedEnabled(cart) then GiftStep else CartStep)
      ensures isOpen && giftOptions == old(giftOptions)
    {
      if ProceedEnabled(cart) {
        step := GiftStep;
      }
    }

    /** The two 'is this a gift' buttons; the note fields keep their text. */
    method SetIsGift(isGift: bool)
      requires Valid() && isOpen && step == GiftStep
      modifies this
      ensures Valid()
      ensures giftOptions == old(giftOptions).(isGift := isGift)
      ensures isOpen && step == GiftStep
    {
      giftOptions := giftOptions.(isGift := isGift);
    }

    method SetSenderName(name: string)
      requires Valid() && isOpen && step == GiftStep
      modifies this
      ensures Valid()
      ensures giftOptions == old(giftOptions).(senderName := name)
      ensures isOpen && step == GiftStep
    {
      giftOptions := giftOptions.(senderName := name);
    }

    method SetRecipientName(name: string)
      requires Valid() && isOpen && step == GiftStep
      modifies this
      ensures Valid()
      ensures giftOptions == old(giftOptions).(recipientName := name)
      ensures isOpen && step == GiftStep
    {
      giftOptions := giftOptions.(recipientName := name);
    }

    method SetMessage(message: string)
      requires Valid() && isOpen && step == GiftStep
      modifies this
      ensures Valid()
      ensures giftOptions == old(giftOptions).(message := message)
      ensures isOpen && step == GiftStep
    {
      giftOptions := giftOptions.(message := message);
    }

    /** 'Back to Cart' keeps the gift options. */
    method BackToCart()
      requires Valid() && isOpen && step == GiftStep
      modifies this
      ensures Valid()
      ensures step == CartStep && isOpen && giftOptions == old(giftOptions)
    {
      step := CartStep;
    }

    /** 'Continue to Payment': ignored while the gift note is incomplete. */
    method ContinueToPayment()
      requires Valid() && isOpen && step == GiftStep
      modifies this
      ensures Valid()
      ensures step == (if ContinueBlocked(giftOptions) then GiftStep else PaymentStep)
      ensures isOpen && giftOptions == old(giftOptions)
    {
      if !ContinueBlocked(giftOptions) {
        step := PaymentStep;
      }
    }

    /** The payment step's 'Back'. */
    method BackToGift()
      requires Valid() && isOpen && step == PaymentStep
      modifies this
      ensures Valid()
      ensures step == GiftStep && isOpen && giftOptions == old(giftOptions)
    {
      step := GiftStep;
    }

    /** `resetAndClose`: the close buttons and the backdrop, on any step. */
    method Close()
      modifies this
      ensures Valid()
      ensures !isOpen && step == CartStep && giftOptions == DefaultGiftOptions
    {
      step := CartStep;
      giftOptions := DefaultGiftOptions;
      isOpen := false;
    }

    /** 'I Have Paid': empties the bag, reports the order (mentioning the
        gift note when there is one) and resets and closes the modal. The
        catalog, categories and payment settings do not change. */
    method Finish(shop: Storefront)
      requires Valid() && isOpen && step == PaymentStep
      modifies this, shop
      ensures Valid() && shop.Valid()
      ensures shop.cartItems == []
      ensures shop.toast == Some(ToastMessage(FinishMessage(old(giftOptions)), Success))
      ensures shop.products == old(shop.products) && shop.categories == old(shop.categories)
      ensures shop.paymentDetails == old(shop.paymentDetails)
      ensures !isOpen && step == CartStep && giftOptions == DefaultGiftOptions
    {
      var message := FinishMessage(giftOptions);
      shop.ClearCart();
      shop.Notify(message, Success);
      Close();
    }
  }
}
