/** The admin dashboard (components/AdminDashboard.tsx): the product form,
    the category form and the payment settings form. Its handlers call the
    page's store handlers, here the methods of a `Storefront`. */
module Admin {
  import opened Types
  import opened Text
  import opened Shop
  import opened Seqs

  const FallbackCategory: string := "Women"
  const ImageUploadedMessage: string := "Image uploaded"

  /** `categories[0] || 'Women'`: the first label, unless the list is empty
      or that label is the empty string. */
  function DefaultCategory(categories: seq<string>): (category: string)
    ensures category != ""
    ensures |categories| > 0 && categories[0] != "" ==> category == categories[0]
    ensures (|categories| == 0 || categories[0] == "") ==> category == FallbackCategory
    ensures category in categories || category == FallbackCategory
  {
    if |categories| > 0 && categories[0] != "" then categories[0] else FallbackCategory
  }

  /** The blank product form: no id, name, description or image, price 0,
      both flags off, and the default category. */
  function EmptyProduct(categories: seq<string>): (p: Product)
    ensures p.id == "" && p.name == "" && p.description == "" && p.image == ""
    ensures p.price == 0 && !p.isNew && !p.soldOut
    ensures p.category == DefaultCategory(categories)
  {
    Product("", "", 0, "", "", DefaultCategory(categories), false, false)
  }

  class AdminDashboard {
    var editingProduct: Option<Product>
    var isFormOpen: bool
    var formData: Product
    var newCategory: string
    var tempPayment: PaymentDetails

    /** The form has no id field, so while a product is being edited the
        form keeps that product's id and saving it updates that product. */
    ghost predicate Valid()
      reads this
    {
      editingProduct.Some? ==> formData.id == editingProduct.value.id
    }

    /** The dashboard as mounted: the payment form starts from the current
        settings and is not refreshed when they change later. */
    constructor(categories: seq<string>, paymentDetails: PaymentDetails)
      ensures Valid()
      ensures editingProduct == None && !isFormOpen
      ensures formData == EmptyProduct(categories)
      ensures newCategory == "" && tempPayment == paymentDetails
    {
      editingProduct := None;
      isFormOpen := false;
      formData := EmptyProduct(categories);
      newCategory := "";
      tempPayment := paymentDetails;
    }

    /** A product row's 'Edit' button (shown while the form is closed). */
    method EditClick(product: Product)
      requires Valid() && !isFormOpen
      modifies this
      ensures Valid()
      ensures editingProduct == Some(product) && formData == product && isFormOpen
      ensures newCategory == old(newCategory) && tempPayment == old(tempPayment)
    {
      editingProduct := Some(product);
      formData := product;
      isFormOpen := true;
    }

    /** 'Add New Bag': a blank form with the caller's new id and the
        default category. The source takes the clock's reading as the id and
        does not check it against the catalog; `Submit` keeps the ids
        distinct when that id is fresh. */
    method AddNewClick(newId: string, categories: seq<string>)
      requires Valid() && !isFormOpen
      modifies this
      ensures Valid()
      ensures editingProduct == None && isFormOpen
      ensures formData == EmptyProduct(categories).(id := newId)
      ensures newCategory == old(newCategory) && tempPayment == old(tempPayment)
    {
      editingProduct := None;
      formData := EmptyProduct(categories).(id := newId);
      isFormOpen := true;
    }

    /** The form fields' change handlers: every field but the id is
        editable. */
    method EditForm(edited: Product)
      requires Valid() && isFormOpen
      modifies this
      ensures Valid()
      ensures formData == edited.(id := old(formData).id)
      ensures editingProduct == old(editingProduct) && isFormOpen
      ensures newCategory == old(newCategory) && tempPayment == old(tempPayment)
    {
      formData := edited.(id := formData.id);
    }

    /** The file reader's completion for the image picker: only the form's
        image changes, and the page shows an info toast. It lands whether or
        not the form is still open. */
    method ImageLoaded(dataUrl: string, shop: Storefront)
      requires Valid() && shop.Valid()
      modifies this, shop
      ensures Valid() && shop.Valid()
      ensures formData == old(formData).(image := dataUrl)
      ensures shop.toast == Some(ToastMessage(ImageUploadedMessage, Info))
      ensures shop.products == old(shop.products) && shop.categories == old(shop.categories)
      ensures shop.cartItems == old(shop.cartItems) && shop.paymentDetails == old(shop.paymentDetails)
      ensures editingProduct == old(editingProduct) && isFormOpen == old(isFormOpen)
      ensures newCategory == old(newCategory) && tempPayment == old(tempPayment)
    {
      formData := formData.(image := dataUrl);
      shop.Notify(ImageUploadedMessage, Info);
    }

    /** The form's 'Cancel': closes it and discards nothing else. */
    method CancelForm()
      requires Valid()
      modifies this
      ensures Valid()
      ensures !isFormOpen
      ensures editingProduct == old(editingProduct) && formData == old(formData)
      ensures newCategory == old(newCategory) && tempPayment == old(tempPayment)
    {
      isFormOpen := false;
    }

    /** 'Save Bag': updates the product being edited, or adds the form as a
        new product, then closes the form. */
    method Submit(shop: Storefront)
      requires Valid() && isFormOpen && shop.Valid()
      modifies this, shop
      ensures Valid() && shop.Valid()
      ensures old(editingProduct).Some? ==>
        && old(formData).id == old(editingProduct).value.id
        && shop.products == ReplaceById(old(shop.products), old(formData))
        && shop.toast == Some(ToastMessage(ProductUpdatedMessage, Success))
      ensures old(editingProduct).None? ==>
        && shop.products == [old(formData)] + old(shop.products)
        && shop.toast == Some(ToastMessage(ProductAddedMessage, Success))
      ensures DistinctBy(old(shop.products), ProductIdOf)
        && (old(editingProduct).Some? || forall i :: 0 <= i < |old(shop.products)| ==> old(shop.products)[i].id != old(formData).id)
        ==> DistinctBy(shop.products, ProductIdOf)
      ensures shop.categories == old(shop.categories) && shop.cartItems == old(shop.cartItems)
      ensures shop.paymentDetails == old(shop.paymentDetails)
      ensures !isFormOpen && editingProduct == old(editingProduct) && formData == old(formData)
      ensures newCategory == old(newCategory) && tempPayment == old(tempPayment)
    {
      if editingProduct.Some? {
        shop.UpdateProduct(formData);
      } else {
        shop.AddProduct(formData);
      }
      isFormOpen := false;
    }

    /** The category field's change handler. */
    method TypeCategory(text: string)
      requires Valid()
      modifies this
      ensures Valid()
      ensures newCategory == text
      ensures editingProduct == old(editingProduct) && isFormOpen == old(isFormOpen)
      ensures formData == old(formData) && tempPayment == old(tempPayment)
    {
      newCategory := text;
    }

    /** The category form's 'Add': a draft that trims to nothing is ignored
        and kept; otherwise the trimmed label goes to the page's category
        handler and the draft is cleared. */
    method CategorySubmit(shop: Storefront)
      requires Valid() && shop.Valid()
      modifies this, shop
      ensures Valid() && shop.Valid()
      ensures AllWhitespace(old(newCategory)) ==>
        && newCategory == old(newCategory)
        && shop.categories == old(shop.categories) && shop.toast == old(shop.toast)
      ensures !AllWhitespace(old(newCategory)) ==>
        && newCategory == ""
        && Trim(old(newCategory)) in shop.categories
        && (Trim(old(newCategory)) !in old(shop.categories) ==>
              && shop.categories == old(shop.categories) + [Trim(old(newCategory))]
              && shop.toast == Some(ToastMessage(CategoryAddedMessage(Trim(old(newCategory))), Success)))
        && (Trim(old(newCategory)) in old(shop.categories) ==>
              shop.categories == old(shop.categories) && shop.toast == old(shop.toast))
      ensures shop.products == old(shop.products) && shop.cartItems == old(shop.cartItems)
      ensures shop.paymentDetails == old(shop.paymentDetails)
      ensures editingProduct == old(editingProduct) && isFormOpen == old(isFormOpen)
      ensures formData == old(formData) && tempPayment == old(tempPayment)
    {
      var draft := newCategory;
      var trimmed := Trim(draft);
      if trimmed != "" {
        shop.AddCategory(trimmed);
        newCategory := "";
      }
    }

    /** The payment fields' change handlers. */
    method EditPayment(details: PaymentDetails)
      requires Valid()
      modifies this
      ensures Valid()
      ensures tempPayment == details
      ensures editingProduct == old(editingProduct) && isFormOpen == old(isFormOpen)
      ensures formData == old(formData) && newCategory == old(newCategory)
    {
      tempPayment := details;
    }

    /** 'Save Settings': the edited payment record replaces the page's. */
    method PaymentSubmit(shop: Storefront)
      requires Valid() && shop.Valid()
      modifies shop
      ensures shop.Valid()
      ensures shop.paymentDetails == tempPayment
      ensures shop.toast == Some(ToastMessage(PaymentSavedMessage, Success))
      ensures shop.products == old(shop.products) && shop.categories == old(shop.categories)
      ensures shop.cartItems == old(shop.cartItems)
    {
      shop.UpdatePayment(tempPayment);
    }

    /** A product row's 'Delete', after the browser's confirmation dialog
        (its answer is `confirmed`): declining changes nothing. */
    method DeleteProductClick(id: string, confirmed: bool, shop: Storefront)
      requires Valid() && !isFormOpen && shop.Valid()
      modifies shop
      ensures shop.Valid()
      ensures !confirmed ==> shop.products == old(shop.products) && shop.toast == old(shop.toast)
      ensures confirmed ==>
        && shop.products == RemoveById(old(shop.products), id)
        && shop.toast == Some(ToastMessage(ProductDeletedMessage, Info))
      ensures shop.categories == old(shop.categories) && shop.cartItems == old(shop.cartItems)
      ensures shop.paymentDetails == old(shop.paymentDetails)
    {
      if confirmed {
        shop.DeleteProduct(id);
      }
    }

    /** A category row's delete button, after the confirmation dialog:
        declining changes nothing. */
    method DeleteCategoryClick(category: string, confirmed: bool, shop: Storefront)
      requires Valid() && shop.Valid()
      modifies shop
      ensures shop.Valid()
      ensures !confirmed ==> shop.categories == old(shop.categories) && shop.toast == old(shop.toast)
      ensures confirmed ==>
        && shop.categories == RemoveLabel(old(shop.categories), category)
        && shop.toast == Some(ToastMessage(CategoryRemovedMessage(category), Info))
      ensures shop.products == old(shop.products) && shop.cartItems == old(shop.cartItems)
      ensures shop.paymentDetails == old(shop.paymentDetails)
    {
      if confirmed {
        shop.DeleteCategory(category);
      }
    }
  }
}
