/** End-to-end runs of the storefront written as methods: each one drives
    the stores and components through a short session and states what the
    session ends with. */
module Scenarios {
  import opened Types
  import opened Text
  import opened Gemini
  import opened Shop
  import opened Seqs
  import opened Catalog
  import opened Checkout
  import opened Chat
  import opened Admin

  /** Clicking the add button of a sold-out bag leaves the bag empty and
      shows no toast. */
  method SoldOutBagStaysOut(catalog: seq<Product>, bag: Product) returns (cart: seq<CartItem>, toast: Option<ToastMessage>)
    requires bag.soldOut
    ensures cart == [] && toast == None
  {
    var shop := new Storefront(catalog, DefaultCategories, DefaultPayment);
    shop.AddToCartIfAvailable(bag, "c1");
    cart, toast := shop.cartItems, shop.toast;
  }

  /** Shopping the seed catalog: the sold-out sienna bucket stays out of the
      bag, the latte tote goes in, and the bag totals the tote's price. */
  method SeedCatalogShopping() returns (cart: seq<CartItem>, total: int)
    ensures cart == [CartItem(SeedProducts[0], "c2")]
    ensures total == 85
  {
    SeedSoldOut();
    var shop := new Storefront(SeedProducts, DefaultCategories, DefaultPayment);
    shop.AddToCartIfAvailable(SeedProducts[5], "c1");
    shop.AddToCartIfAvailable(SeedProducts[0], "c2");
    cart := shop.cartItems;
    assert cart == [] + [CartItem(SeedProducts[0], "c2")];
    TotalAppend([], CartItem(SeedProducts[0], "c2"));
    total := Total(cart);
  }

  lemma TotalOfTwo(a: CartItem, b: CartItem)
    ensures Total([a, b]) == a.item.price + b.item.price
  {
    TotalAppend([], a);
    assert [a] + [b] == [a, b];
    TotalAppend([a], b);
  }

  lemma TrimPaddedLabel()
    ensures Trim(" Bags ") == "Bags" && !AllWhitespace(" Bags ")
  {
    assert " Bags " == " " + "Bags" + " ";
    TrimPadding(" ", "Bags", " ");
  }

  /** Two bags in, one out: the total follows the lines, and the toast
      names the last bag added. */
  method AddTwoRemoveOne(catalog: seq<Product>, first: Product, second: Product) returns (before: int, after: int, toast: Option<ToastMessage>)
    ensures before == first.price + second.price && after == second.price
    ensures toast == Some(ToastMessage(AddedToBagMessage(second.name), Success))
  {
    var shop := new Storefront(catalog, DefaultCategories, DefaultPayment);
    shop.AddToCart(first, "c1");
    shop.AddToCart(second, "c2");
    assert shop.cartItems == [CartItem(first, "c1"), CartItem(second, "c2")];
    TotalOfTwo(CartItem(first, "c1"), CartItem(second, "c2"));
    before := Total(shop.cartItems);
    shop.RemoveFromCart("c1");
    TotalAfterRemove([CartItem(first, "c1"), CartItem(second, "c2")], 0);
    after := Total(shop.cartItems);
    toast := shop.toast;
  }

  /** A gift checkout: the note blocks payment until it has a recipient and
      a message; paying empties the bag and reports the gift order. */
  method GiftCheckout(catalog: seq<Product>, first: Product, second: Product) returns (total: int, blockedStep: Step, message: string, cart: seq<CartItem>, open: bool)
    ensures total == first.price + second.price
    ensures blockedStep == GiftStep
    ensures message == GiftOrderPlacedMessage
    ensures cart == [] && !open
  {
    var shop := new Storefront(catalog, DefaultCategories, DefaultPayment);
    shop.AddToCart(first, "c1");
    shop.AddToCart(second, "c2");
    assert shop.cartItems == [CartItem(first, "c1"), CartItem(second, "c2")];
    TotalOfTwo(CartItem(first, "c1"), CartItem(second, "c2"));
    total := Total(shop.cartItems);
    var flow := new CheckoutFlow();
    flow.Open();
    flow.Proceed(shop.cartItems);
    flow.SetIsGift(true);
    flow.SetRecipientName("Mum");
    flow.ContinueToPayment();
    blockedStep := flow.step;
    flow.SetMessage("Happy birthday!");
    flow.ContinueToPayment();
    flow.Finish(shop);
    message := shop.toast.value.message;
    cart, open := shop.cartItems, flow.isOpen;
  }

  /** Checkout cannot start from an empty bag. */
  method EmptyBagCannotProceed() returns (step: Step)
    ensures step == CartStep
  {
    var flow := new CheckoutFlow();
    flow.Open();
    flow.Proceed([]);
    step := flow.step;
  }

  /** A draft of spaces is ignored: nothing is sent and nothing is added. */
  method BlankDraftIgnored(products: seq<Product>) returns (call: Option<Outgoing>, transcript: seq<ChatMessage>)
    ensures call == None && transcript == [Greeting]
  {
    var widget := new ChatWidget();
    widget.TypeText("   ");
    assert AllWhitespace(widget.inputText);
    call := widget.BeginSend("10", products);
    transcript := widget.messages;
  }

  /** A question goes out with the catalog, and a failed call comes back as
      the fallback text. */
  method ChatTurn(products: seq<Product>) returns (call: Option<Outgoing>, transcript: seq<ChatMessage>)
    ensures call == Some(Outgoing("Any brown bags?", products, None))
    ensures transcript == [Greeting, ChatMessage("11", User, "Any brown bags?", None), ChatMessage("12", Model, NapReply, None)]
  {
    var widget := new ChatWidget();
    widget.TypeText("Any brown bags?");
    assert !IsJsWhitespace(widget.inputText[0]);
    call := widget.BeginSend("11", products);
    widget.ReceiveReply("12", Threw);
    transcript := widget.messages;
  }

  /** A category typed with surrounding spaces is stored trimmed, once. */
  method AddTrimmedCategory(catalog: seq<Product>, categories: seq<string>) returns (after: seq<string>, toast: Option<ToastMessage>, draft: string)
    requires "Bags" !in categories
    ensures after == categories + ["Bags"]
    ensures toast == Some(ToastMessage(CategoryAddedMessage("Bags"), Success))
    ensures draft == ""
  {
    var shop := new Storefront(catalog, categories, DefaultPayment);
    var admin := new AdminDashboard(shop.categories, shop.paymentDetails);
    admin.TypeCategory(" Bags ");
    TrimPaddedLabel();
    admin.CategorySubmit(shop);
    after, toast, draft := shop.categories, shop.toast, admin.newCategory;
  }

  /** Editing a bag keeps its id even if the edit names another, so saving
      updates that bag in place and no other. */
  method EditPrice(catalog: seq<Product>, k: nat, price: int) returns (products: seq<Product>)
    requires DistinctBy(catalog, ProductIdOf) && k < |catalog|
    ensures |products| == |catalog|
    ensures products[k] == catalog[k].(price := price)
    ensures forall i :: 0 <= i < |catalog| && i != k ==> products[i] == catalog[i]
  {
    var shop := new Storefront(catalog, DefaultCategories, DefaultPayment);
    var admin := new AdminDashboard(shop.categories, shop.paymentDetails);
    admin.EditClick(catalog[k]);
    admin.EditForm(catalog[k].(price := price, id := "new-id"));
    admin.Submit(shop);
    products := shop.products;
    forall i | 0 <= i < |catalog| && i != k
      ensures products[i] == catalog[i]
    {
      assert ProductIdOf(catalog[i]) != ProductIdOf(catalog[k]);
    }
  }

  /** Adding a bag under a fresh id puts it first and keeps the catalog's
      ids distinct. */
  method AddNewBag(catalog: seq<Product>, newId: string, name: string, price: int) returns (products: seq<Product>)
    requires DistinctBy(catalog, ProductIdOf)
    requires forall i :: 0 <= i < |catalog| ==> catalog[i].id != newId
    ensures products == [EmptyProduct(DefaultCategories).(id := newId, name := name, price := price)] + catalog
    ensures DistinctBy(products, ProductIdOf)
  {
    var shop := new Storefront(catalog, DefaultCategories, DefaultPayment);
    var admin := new AdminDashboard(shop.categories, shop.paymentDetails);
    admin.AddNewClick(newId, shop.categories);
    admin.EditForm(admin.formData.(name := name, price := price));
    admin.Submit(shop);
    products := shop.products;
  }

  /** Declining the confirmation dialogs deletes nothing. */
  method DeclinedDelete(catalog: seq<Product>, categories: seq<string>) returns (products: seq<Product>, after: seq<string>)
    ensures products == catalog && after == categories
  {
    var shop := new Storefront(catalog, categories, DefaultPayment);
    var admin := new AdminDashboard(shop.categories, shop.paymentDetails);
    if |catalog| > 0 {
      admin.DeleteProductClick(catalog[0].id, false, shop);
    }
    admin.DeleteCategoryClick("Women", false, shop);
    products, after := shop.products, shop.categories;
  }
}
