/** The application-level stores and their handlers (app/page.tsx): the
    catalog, the category list, the payment settings, the cart and the
    single-slot toast, plus the shop view's filter. */
module Shop {
  import opened Types
  import opened Seqs
  import opened Text

  const DefaultCategories: seq<string> := ["Women", "Men", "Unisex"]

  const DefaultPayment: PaymentDetails := PaymentDetails(
    "Earth Trust Bank",
    "Fifi Bags Official",
    "123-456-7890",
    "Please include your name in the transfer description.")

  /** The category filter value that matches every product. */
  const AllCategories: string := "All"

  const ProductAddedMessage: string := "Product added successfully"
  const ProductUpdatedMessage: string := "Product updated"
  const ProductDeletedMessage: string := "Product deleted"
  const PaymentSavedMessage: string := "Payment settings saved"

  function AddedToBagMessage(name: string): string {
    "Added " + name + " to bag"
  }

  function CategoryAddedMessage(category: string): string {
    "Category \"" + category + "\" added"
  }

  function CategoryRemovedMessage(category: string): string {
    "Category \"" + category + "\" removed"
  }

  function CartIdOf(line: CartItem): string {
    line.cartId
  }

  function ProductIdOf(p: Product): string {
    p.id
  }

  /** No line of `cart` carries `cartId` yet. */
  predicate CartIdFresh(cart: seq<CartItem>, cartId: string) {
    forall i :: 0 <= i < |cart| ==> cart[i].cartId != cartId
  }

  function OtherLine(cartId: string): CartItem -> bool {
    (line: CartItem) => line.cartId != cartId
  }

  function OtherProduct(id: string): Product -> bool {
    (p: Product) => p.id != id
  }

  function OtherLabel(category: string): string -> bool {
    (c: string) => c != category
  }

  /** The cart after removing by line id: every line with that id is gone,
      every other line stays, in order. */
  function RemoveLines(cart: seq<CartItem>, cartId: string): (kept: seq<CartItem>)
    ensures IsSubsequence(kept, cart)
    ensures forall i :: 0 <= i < |kept| ==> kept[i] in cart && kept[i].cartId != cartId
    ensures forall i :: 0 <= i < |cart| && cart[i].cartId != cartId ==> cart[i] in kept
    ensures DistinctBy(cart, CartIdOf) ==> DistinctBy(kept, CartIdOf)
    ensures forall x :: multiset(kept)[x] == (if x.cartId != cartId then multiset(cart)[x] else 0)
  {
    FilterIsSubsequence(cart, OtherLine(cartId));
    FilterCounts(cart, OtherLine(cartId));
    if DistinctBy(cart, CartIdOf) then
      FilterKeepsDistinctBy(cart, OtherLine(cartId), CartIdOf);
      Filter(cart, OtherLine(cartId))
    else
      Filter(cart, OtherLine(cartId))
  }

  /** With unique line ids, removing the id of a line drops exactly that one
      line and keeps the others in order. */
  lemma RemovePresentLine(cart: seq<CartItem>, k: nat)
    requires DistinctBy(cart, CartIdOf) && k < |cart|
    ensures RemoveLines(cart, cart[k].cartId) == cart[..k] + cart[k + 1..]
    ensures |RemoveLines(cart, cart[k].cartId)| == |cart| - 1
  {
    forall i | 0 <= i < |cart| && i != k
      ensures cart[i].cartId != cart[k].cartId
    {
      if i < k {
        assert CartIdOf(cart[i]) != CartIdOf(cart[k]);
      } else {
        assert CartIdOf(cart[k]) != CartIdOf(cart[i]);
      }
    }
    FilterDropsOne(cart, OtherLine(cart[k].cartId), k);
  }

  /** Removing an id no line carries leaves the cart as it was. */
  lemma RemoveAbsentLine(cart: seq<CartItem>, cartId: string)
    requires CartIdFresh(cart, cartId)
    ensures RemoveLines(cart, cartId) == cart
  {
    FilterKeepsAll(cart, OtherLine(cartId));
  }

  /** `prev.map(p => p.id === updated.id ? updated : p)`: same length and
      order; entries with the updated id become the update, the others stay. */
  function ReplaceById(ps: seq<Product>, updated: Product): (r: seq<Product>)
    ensures |r| == |ps|
    ensures forall i :: 0 <= i < |ps| ==> r[i] == (if ps[i].id == updated.id then updated else ps[i])
  {
    if ps == [] then []
    else [if ps[0].id == updated.id then updated else ps[0]] + ReplaceById(ps[1..], updated)
  }

  /** The catalog after deleting by id: no entry with that id is left, the
      others stay, in order. */
  function RemoveById(ps: seq<Product>, id: string): (kept: seq<Product>)
    ensures IsSubsequence(kept, ps)
    ensures forall i :: 0 <= i < |kept| ==> kept[i] in ps && kept[i].id != id
    ensures forall i :: 0 <= i < |ps| && ps[i].id != id ==> ps[i] in kept
    ensures DistinctBy(ps, ProductIdOf) ==> DistinctBy(kept, ProductIdOf)
    ensures forall x :: multiset(kept)[x] == (if x.id != id then multiset(ps)[x] else 0)
  {
    FilterIsSubsequence(ps, OtherProduct(id));
    FilterCounts(ps, OtherProduct(id));
    if DistinctBy(ps, ProductIdOf) then
      FilterKeepsDistinctBy(ps, OtherProduct(id), ProductIdOf);
      Filter(ps, OtherProduct(id))
    else
      Filter(ps, OtherProduct(id))
  }

  /** The category list after deleting a label: the label is gone, the other
      labels stay, in order. */
  function RemoveLabel(categories: seq<string>, category: string): (kept: seq<string>)
    ensures IsSubsequence(kept, categories)
    ensures category !in kept
    ensures forall c :: c in kept <==> c in categories && c != category
    ensures NoDuplicates(categories) ==> NoDuplicates(kept)
    ensures forall c :: multiset(kept)[c] == (if c != category then multiset(categories)[c] else 0)
  {
    FilterIsSubsequence(categories, OtherLabel(category));
    FilterCounts(categories, OtherLabel(category));
    if NoDuplicates(categories) then
      FilterKeepsDistinctBy(categories, OtherLabel(category), Identity);
      Filter(categories, OtherLabel(category))
    else
      Filter(categories, OtherLabel(category))
  }

  predicate MatchesCategory(p: Product, activeCategory: string) {
    activeCategory == AllCategories || p.category == activeCategory
  }

  /** Case-insensitive substring search over name and description. */
  predicate MatchesSearch(p: Product, query: string) {
    Contains(Lower(p.name), Lower(query)) || Contains(Lower(p.description), Lower(query))
  }

  predicate Shown(p: Product, activeCategory: string, query: string) {
    MatchesCategory(p, activeCategory) && MatchesSearch(p, query)
  }

  function ShownIn(activeCategory: string, query: string): Product -> bool {
    (p: Product) => Shown(p, activeCategory, query)
  }

  /** The products the shop view lists: an order-preserving sublist of the
      catalog holding exactly the products that match both the category and
      the search. */
  function ShopFilter(ps: seq<Product>, activeCategory: string, query: string): (shown: seq<Product>)
    ensures IsSubsequence(shown, ps)
    ensures forall i :: 0 <= i < |shown| ==> shown[i] in ps && Shown(shown[i], activeCategory, query)
    ensures forall i :: 0 <= i < |ps| && Shown(ps[i], activeCategory, query) ==> ps[i] in shown
    ensures forall p :: multiset(shown)[p] == (if Shown(p, activeCategory, query) then multiset(ps)[p] else 0)
  {
    FilterIsSubsequence(ps, ShownIn(activeCategory, query));
    FilterCounts(ps, ShownIn(activeCategory, query));
    Filter(ps, ShownIn(activeCategory, query))
  }

  /** With category 'All' and an empty search the shop lists the whole
      catalog. */
  lemma ShopFilterShowsAll(ps: seq<Product>)
    ensures ShopFilter(ps, AllCategories, "") == ps
  {
    forall i | 0 <= i < |ps| ensures Shown(ps[i], AllCategories, "") {
      assert Lower("") == "";
      ContainsEmpty(Lower(ps[i].name));
    }
    FilterKeepsAll(ps, ShownIn(AllCategories, ""));
  }

  /** Queries that differ only in ASCII letter case list the same products. */
  lemma SearchIgnoresCase(ps: seq<Product>, activeCategory: string, query: string, query': string)
    requires Lower(query) == Lower(query')
    ensures ShopFilter(ps, activeCategory, query) == ShopFilter(ps, activeCategory, query')
  {
    FilterSameTest(ps, ShownIn(activeCategory, query), ShownIn(activeCategory, query'));
  }

  /** The application root's state. Nothing here is persisted; the initial
      catalog, categories and payment settings are whatever storage or the
      built-in defaults supplied. */
  class Storefront {
    var products: seq<Product>
    var categories: seq<string>
    var paymentDetails: PaymentDetails
    var cartItems: seq<CartItem>
    var toast: Option<ToastMessage>

    /** Cart line ids are unique. */
    ghost predicate Valid()
      reads this
    {
      DistinctBy(cartItems, CartIdOf)
    }

    constructor(products: seq<Product>, categories: seq<string>, paymentDetails: PaymentDetails)
      ensures Valid()
      ensures this.products == products && this.categories == categories
      ensures this.paymentDetails == paymentDetails
      ensures cartItems == [] && toast == None
    {
      this.products := products;
      this.categories := categories;
      this.paymentDetails := paymentDetails;
      cartItems := [];
      toast := None;
    }

    /** Shows `message`, replacing any toast already visible. */
    method Notify(message: string, kind: ToastKind)
      modifies this
      ensures toast == Some(ToastMessage(message, kind))
      ensures products == old(products) && categories == old(categories)
      ensures paymentDetails == old(paymentDetails) && cartItems == old(cartItems)
    {
      toast := Some(ToastMessage(message, kind));
    }

    /** The toast's own close callback. */
    method DismissToast()
      modifies this
      ensures toast == None
      ensures products == old(products) && categories == old(categories)
      ensures paymentDetails == old(paymentDetails) && cartItems == old(cartItems)
    {
      toast := None;
    }

    /** Appends one line holding the product snapshot and the caller's fresh
        line id. There is no sold-out check here. */
    method AddToCart(product: Product, cartId: string)
      requires Valid() && CartIdFresh(cartItems, cartId)
      modifies this
      ensures Valid()
      ensures cartItems == old(cartItems) + [CartItem(product, cartId)]
      ensures toast == Some(ToastMessage(AddedToBagMessage(product.name), Success))
      ensures products == old(products) && categories == old(categories)
      ensures paymentDetails == old(paymentDetails)
    {
      cartItems := cartItems + [CartItem(product, cartId)];
      Notify(AddedToBagMessage(product.name), Success);
    }

    /** The product card's and product modal's add button: a sold-out product
        changes nothing and shows no toast. */
    method AddToCartIfAvailable(product: Product, cartId: string)
      requires Valid() && CartIdFresh(cartItems, cartId)
      modifies this
      ensures Valid()
      ensures product.soldOut ==> cartItems == old(cartItems) && toast == old(toast)
      ensures !product.soldOut ==>
        && cartItems == old(cartItems) + [CartItem(product, cartId)]
        && toast == Some(ToastMessage(AddedToBagMessage(product.name), Success))
      ensures products == old(products) && categories == old(categories)
      ensures paymentDetails == old(paymentDetails)
    {
      if !product.soldOut {
        AddToCart(product, cartId);
      }
    }

    method RemoveFromCart(cartId: string)
      requires Valid()
      modifies this
      ensures Valid()
      ensures cartItems == RemoveLines(old(cartItems), cartId)
      ensures products == old(products) && categories == old(categories)
      ensures paymentDetails == old(paymentDetails) && toast == old(toast)
    {
      cartItems := RemoveLines(cartItems, cartId);
    }

    method ClearCart()
      modifies this
      ensures Valid()
      ensures cartItems == []
      ensures products == old(products) && categories == old(categories)
      ensures paymentDetails == old(paymentDetails) && toast == old(toast)
    {
      cartItems := [];
    }

    /** Prepends the product; a fresh id keeps catalog ids unique. */
    method AddProduct(product: Product)
      requires Valid()
      modifies this
      ensures Valid()
      ensures products == [product] + old(products)
      ensures DistinctBy(old(products), ProductIdOf) && (forall i :: 0 <= i < |old(products)| ==> old(products)[i].id != product.id)
        ==> DistinctBy(products, ProductIdOf)
      ensures toast == Some(ToastMessage(ProductAddedMessage, Success))
      ensures categories == old(categories) && cartItems == old(cartItems)
      ensures paymentDetails == old(paymentDetails)
    {
      products := [product] + products;
      Notify(ProductAddedMessage, Success);
    }

    /** Replaces the entries with the product's id. Cart lines keep their
        snapshots. */
    method UpdateProduct(product: Product)
      requires Valid()
      modifies this
      ensures Valid()
      ensures products == ReplaceById(old(products), product)
      ensures DistinctBy(old(products), ProductIdOf) ==> DistinctBy(products, ProductIdOf)
      ensures toast == Some(ToastMessage(ProductUpdatedMessage, Success))
      ensures categories == old(categories) && cartItems == old(cartItems)
      ensures paymentDetails == old(paymentDetails)
    {
      products := ReplaceById(products, product);
      Notify(ProductUpdatedMessage, Success);
    }

    method DeleteProduct(id: string)
      requires Valid()
      modifies this
      ensures Valid()
      ensures products == RemoveById(old(products), id)
      ensures DistinctBy(old(products), ProductIdOf) ==> DistinctBy(products, ProductIdOf)
      ensures toast == Some(ToastMessage(ProductDeletedMessage, Info))
      ensures categories == old(categories) && cartItems == old(cartItems)
      ensures paymentDetails == old(paymentDetails)
    {
      products := RemoveById(products, id);
      Notify(ProductDeletedMessage, Info);
    }

    /** Replaces the whole payment record. */
    method UpdatePayment(details: PaymentDetails)
      requires Valid()
      modifies this
      ensures Valid()
      ensures paymentDetails == details
      ensures toast == Some(ToastMessage(PaymentSavedMessage, Success))
      ensures products == old(products) && categories == old(categories)
      ensures cartItems == old(cartItems)
    {
      paymentDetails := details;
      Notify(PaymentSavedMessage, Success);
    }

    /** A label already present (exact match) changes nothing and shows no
        toast; otherwise it is appended. */
    method AddCategory(category: string)
      requires Valid()
      modifies this
      ensures Valid()
      ensures category in old(categories) ==> categories == old(categories) && toast == old(toast)
      ensures category !in old(categories) ==>
        && categories == old(categories) + [category]
        && toast == Some(ToastMessage(CategoryAddedMessage(category), Success))
      ensures category in categories
      ensures NoDuplicates(old(categories)) ==> NoDuplicates(categories)
      ensures products == old(products) && cartItems == old(cartItems)
      ensures paymentDetails == old(paymentDetails)
    {
      if category !in categories {
        categories := categories + [category];
        Notify(CategoryAddedMessage(category), Success);
      }
    }

    /** Removes the label. Products that still name it are left as they are. */
    method DeleteCategory(category: string)
      requires Valid()
      modifies this
      ensures Valid()
      ensures categories == RemoveLabel(old(categories), category)
      ensures toast == Some(ToastMessage(CategoryRemovedMessage(category), Info))
      ensures products == old(products) && cartItems == old(cartItems)
      ensures paymentDetails == old(paymentDetails)
    {
      categories := RemoveLabel(categories, category);
      Notify(CategoryRemovedMessage(category), Info);
    }
  }
}
