# FiFi-Bags storefront core in Dafny

FIFI-Bags is a single-page shop for handmade bags. This project models the
part of it that holds and changes state in memory, and proves properties of
that model:

- **The page's stores** (`Shop.Storefront`). This covers the cart of product
  snapshots with unique line ids, the catalog (prepend-add, update-by-id,
  delete-by-id), the duplicate-suppressing category list, the payment
  settings and the single toast slot. There is one method per page handler.
  The shop filter (`Shop.ShopFilter`) is a pure function: a category match
  and a case-insensitive substring search over name and description.
- **The sold-out guard** of the product card and product modal
  (`Shop.Storefront.AddToCartIfAvailable`), wrapped around the unguarded
  `AddToCart`.
- **The cart modal's checkout flow** (`Checkout.CheckoutFlow`). The steps are
  CART, GIFT and PAYMENT, with the button guards, the back edges, the
  resetting close and the finish that empties the bag and picks the
  message. `Checkout.Total` is the fold over line prices.
- **The chat panel** (`Chat.ChatWidget`). Its submit handler is split at the
  awaited call. `BeginSend` applies the guard, appends the user's turn,
  clears the draft and the attachment, and returns the call's arguments.
  `ReceiveReply` appends the assistant's turn. Every state keeps a well-formed
  transcript in which the greeting comes first, turns alternate, and a reply
  is pending exactly when the user spoke last.
- **The admin dashboard** (`Admin.AdminDashboard`). It holds the product
  form (add-new, edit, the image upload's completion, save, cancel), the
  trimmed category form, the payment settings form and the two confirmed
  deletions. Its handlers call the page's handlers, here the methods of the
  `Storefront` passed to them.
- **The request assembly for the assistant** (`Gemini`). This covers the
  inventory text with one line per product, the system instruction around
  it, the data-URL prefix strip, the order of the content parts, and the two
  fallback replies.
- **Supporting pieces.** JavaScript's `filter`, `split`/`join`, `trim`,
  `toLowerCase` and number-to-string conversion are in `Seqs` and `Text`.
  The seed catalog and default payment record are in `Catalog` and `Shop`.
  Short end-to-end sessions are in `Scenarios`.

Prices are integers. Ids that the source draws from the clock or from
`Math.random` are parameters. The result of a file read and the reply of the
generative-language service are also parameters.

## Model

| member | source | states |
|---|---|---|
| Shop.Storefront.constructor | app/page.tsx:20-56 | The stores start from the given catalog, categories and payment settings (storage or the built-in defaults), with an empty cart and no toast. |
| Shop.Storefront.Notify | app/page.tsx:58-60 | The toast slot holds exactly the new message and kind, replacing any earlier one. No other store changes. |
| Shop.Storefront.DismissToast | app/page.tsx:392 | The toast's close callback empties the toast slot and changes nothing else. |
| Shop.Storefront.AddToCart | app/page.tsx:78-82 | Appends exactly one line at the end, holding the product and the caller's fresh line id. Earlier lines are unchanged and line ids stay unique. The toast reads "Added <name> to bag" (Success). There is no sold-out check. |
| Shop.Storefront.AddToCartIfAvailable | components/ProductCard.tsx:52-55 | For a sold-out product the cart and the toast are unchanged. Otherwise it behaves exactly as AddToCart. |
| Shop.Storefront.RemoveFromCart | app/page.tsx:84-86 | The cart becomes RemoveLines of the old cart. No toast is shown and the other stores are unchanged. |
| Shop.RemoveLines | app/page.tsx:85 | The result is an order-preserving subsequence of the cart. No line with the id is left, and every other line is kept with all its copies. The filter keeps line ids unique. |
| Shop.RemovePresentLine | app/page.tsx:85 | With unique ids, removing the id of line k gives exactly the cart without line k (one line fewer, the rest in order). |
| Shop.RemoveAbsentLine | app/page.tsx:85 | Removing an id that no line carries returns the cart unchanged. |
| Shop.Storefront.ClearCart | app/page.tsx:88-90 | The cart becomes empty. No toast is shown and the other stores are unchanged. |
| Shop.Storefront.AddProduct | app/page.tsx:98-101 | The catalog becomes the new product followed by the old catalog. If the old ids were distinct and the new id is fresh, ids stay distinct. The toast is "Product added successfully" (Success). |
| Shop.Storefront.UpdateProduct | app/page.tsx:103-106 | The catalog becomes ReplaceById of the old catalog, and distinct ids stay distinct. The toast is "Product updated". Cart snapshots are not touched. |
| Shop.ReplaceById | app/page.tsx:104 | The length is kept. Each entry whose id matches becomes the update, and every other entry is unchanged and keeps its position. |
| Shop.Storefront.DeleteProduct | app/page.tsx:108-111 | The catalog becomes RemoveById of the old catalog. The toast is "Product deleted" (Info). |
| Shop.RemoveById | app/page.tsx:109 | No entry with the id is left, and every other entry is kept with all its copies. The relative order is preserved, and distinct ids stay distinct. |
| Shop.Storefront.UpdatePayment | app/page.tsx:113-116 | The payment record is replaced whole. The toast is "Payment settings saved". |
| Shop.Storefront.AddCategory | app/page.tsx:118-123 | A label already present leaves the list and the toast unchanged. Otherwise the label is appended at the end and the toast is `Category "<label>" added`. Either way the label is then present, and a duplicate-free list stays duplicate-free. |
| Shop.Storefront.DeleteCategory | app/page.tsx:125-128 | The list becomes RemoveLabel of the old list, and the toast is `Category "<label>" removed` (Info). Products and cart are untouched. |
| Shop.RemoveLabel | app/page.tsx:126 | The label is gone, and every other label is kept in order with all its copies. A duplicate-free list stays duplicate-free. |
| Shop.MatchesCategory | app/page.tsx:175 | Defined as: the active category is 'All', or the product's category equals it. |
| Shop.MatchesSearch | app/page.tsx:176-177 | Defined as: the lowercased query occurs in the lowercased name or the lowercased description. Its properties are stated by ShopFilter and SearchIgnoresCase. |
| Shop.Shown | app/page.tsx:174-178 | Defined as: both the category and the search match. ShopFilter keeps exactly the shown products. |
| Shop.ShopFilter | app/page.tsx:174-179 | The result is an order-preserving sublist. A product is kept iff its category matches ('All' or equal) and the lowercased query occurs in its lowercased name or description. A kept product keeps as many copies as the catalog has. |
| Shop.ShopFilterShowsAll | app/page.tsx:174-179 | The category 'All' with an empty query lists every product. |
| Shop.SearchIgnoresCase | app/page.tsx:176-177 | Queries that lowercase alike list the same products. |
| Checkout.CheckoutFlow.constructor | components/CartModal.tsx:26-32 | The flow starts closed, on the cart step, with the default gift options (not a gift, all texts empty). |
| Checkout.CheckoutFlow.Open | app/page.tsx:300 | The bag button opens the modal and keeps its step and gift options. |
| Checkout.CheckoutFlow.Proceed | components/CartModal.tsx:96-97 | CART moves to GIFT iff the cart is non-empty. Otherwise nothing changes. |
| Checkout.CheckoutFlow.SetIsGift | components/CartModal.tsx:118-127 | Only the gift flag changes. The note's texts are kept. |
| Checkout.CheckoutFlow.SetSenderName | components/CartModal.tsx:151 | Only the sender name changes; the payment guard does not read it. |
| Checkout.CheckoutFlow.SetRecipientName | components/CartModal.tsx:161 | Only the recipient name changes. |
| Checkout.CheckoutFlow.SetMessage | components/CartModal.tsx:173 | Only the gift message changes. |
| Checkout.CheckoutFlow.BackToCart | components/CartModal.tsx:184 | GIFT to CART is always allowed and keeps the gift options. |
| Checkout.CheckoutFlow.ContinueToPayment | components/CartModal.tsx:190-191 | GIFT to PAYMENT happens iff the note is not blocked. It is blocked exactly when it is a gift and the message or the recipient is empty. The flow's invariant records that PAYMENT is only reached unblocked. |
| Checkout.CheckoutFlow.BackToGift | components/CartModal.tsx:246 | PAYMENT to GIFT is always allowed and keeps the gift options. |
| Checkout.CheckoutFlow.Close | components/CartModal.tsx:38-42 | From any step: the flow is reset to CART with default gift options, and the modal is closed. |
| Checkout.CheckoutFlow.Finish | components/CartModal.tsx:44-53 | The cart becomes empty. The toast is the gift message iff the note was a gift at that moment, otherwise "Order placed successfully! 🤎". The flow is then reset and closed as on close. Catalog, categories and payment settings are unchanged. |
| Checkout.FinishMessage | components/CartModal.tsx:47-50 | The message is the gift-order text iff the note is a gift, and the plain order text iff it is not. |
| Checkout.Total | components/CartModal.tsx:36 | Defined as the reduce over the cart, summing line prices from 0. Its properties are the Total lemmas below. |
| Checkout.ProceedEnabled | components/CartModal.tsx:97 | Defined as: the cart is non-empty. Proceed and EmptyBagCannotProceed use it. |
| Checkout.ContinueBlocked | components/CartModal.tsx:191 | Defined as: a gift with an empty message or an empty recipient. ContinueToPayment and GiftCheckout use it. |
| Checkout.TotalAppend | components/CartModal.tsx:36 | Adding a line raises the total by that line's price. Together with the empty cart's total of 0, this makes the total the sum of the line prices. |
| Checkout.TotalCons | components/CartModal.tsx:36 | A line in front raises the total by its price. |
| Checkout.TotalConcat | components/CartModal.tsx:36 | The total of two carts side by side is the sum of their totals. |
| Checkout.TotalNonNegative | components/CartModal.tsx:36 | With no negative prices, the total is never negative. |
| Checkout.TotalWithout | components/CartModal.tsx:36 | The cart without line k totals the cart's total minus that line's price. |
| Checkout.TotalAfterRemove | components/CartModal.tsx:80 | Removing a line from the modal lowers the total by exactly that line's price. |
| Chat.ChatWidget.constructor | components/ChatWidget.tsx:12-17 | The transcript is exactly the model-role greeting. The draft is empty, nothing is loading and no image is attached. |
| Chat.ChatWidget.TypeText | components/ChatWidget.tsx:157 | Only the draft changes. |
| Chat.ChatWidget.ImageLoaded | components/ChatWidget.tsx:34-36 | The completed read becomes the attached image, and nothing else changes. |
| Chat.ChatWidget.ClearImage | components/ChatWidget.tsx:131 | Removes the attachment and changes nothing else. |
| Chat.ChatWidget.BeginSend | components/ChatWidget.tsx:41-59 | An ignored submit (empty trimmed draft and no image, or a reply pending) changes nothing and calls nothing. Otherwise exactly one user message is appended, with the draft and the truthy image. The draft and image are then cleared, loading is set, and the call gets the draft, the catalog and the image. |
| Chat.ChatWidget.ReceiveReply | components/ChatWidget.tsx:59-68 | Exactly one model message is appended, holding the reply (or a fallback), and loading is cleared. The transcript stays well formed. |
| Chat.SubmitIgnored | components/ChatWidget.tsx:43 | Defined as: the trimmed draft is empty and no image is attached, or a reply is pending. AcceptedImpliesEnabled relates it to SendDisabled. |
| Chat.SendDisabled | components/ChatWidget.tsx:163 | Defined as: the untrimmed draft is empty and no image is attached, or a reply is pending. |
| Chat.WellFormedTranscript | components/ChatWidget.tsx:12-67 | Defined as: the greeting first, then roles alternating user and model, every user turn sendable and every model turn non-empty. TranscriptAppend and ReceiveReply preserve it. |
| Chat.TranscriptAppend | components/ChatWidget.tsx:52-67 | Appending the entry of the party whose turn it is keeps the transcript well formed: greeting first, alternating roles, sendable user turns, non-empty replies. |
| Chat.UserMessage | components/ChatWidget.tsx:45-50 | The user message has the user role and the untrimmed draft. It carries the image iff one is attached and non-empty. |
| Chat.ModelMessage | components/ChatWidget.tsx:61-65 | The model message has the model role and non-empty text, equal to the reply whenever the reply has text. |
| Chat.AcceptedImpliesEnabled | components/ChatWidget.tsx:43 | Any submit the handler accepts was enabled by the send button's guard (line 163). |
| Chat.WhitespaceDraftIgnored | components/ChatWidget.tsx:163 | A whitespace-only draft enables the send button, yet the handler's guard (line 43) ignores it. |
| Admin.AdminDashboard.constructor | components/AdminDashboard.tsx:33-53 | No product is being edited and the form is closed. The form holds the blank product, the category draft is empty, and the payment form is a copy of the settings at mount. |
| Admin.EmptyProduct | components/AdminDashboard.tsx:43-52 | The blank product has empty texts, price 0, both flags off, and the default category. |
| Admin.DefaultCategory | components/AdminDashboard.tsx:49 | The default category is the first label when it is truthy, and 'Women' otherwise. It is never empty. |
| Admin.AdminDashboard.EditClick | components/AdminDashboard.tsx:56-60 | The chosen product is being edited, the form holds it, and the form is open. |
| Admin.AdminDashboard.AddNewClick | components/AdminDashboard.tsx:62-66 | Nothing is being edited. The form is the blank product with the caller's id and the default category, and the form is open. |
| Admin.AdminDashboard.EditForm | components/AdminDashboard.tsx:198-284 | Any field except the id may change. While editing, the form keeps the edited product's id. |
| Admin.AdminDashboard.ImageLoaded | components/AdminDashboard.tsx:72-74 | Only the form's image changes, and the toast is "Image uploaded" (Info). |
| Admin.AdminDashboard.CancelForm | components/AdminDashboard.tsx:294 | The form closes, and nothing else changes. |
| Admin.AdminDashboard.Submit | components/AdminDashboard.tsx:80-88 | With a product being edited, the catalog is updated by the form's id. Otherwise the form is added at the front. The form closes either way. Distinct ids stay distinct after an edit, and after an addition whose id no product carries. |
| Admin.AdminDashboard.TypeCategory | components/AdminDashboard.tsx:320 | Only the category draft changes. |
| Admin.AdminDashboard.CategorySubmit | components/AdminDashboard.tsx:90-96 | A whitespace-only draft changes nothing. Otherwise the trimmed label is handed to AddCategory: it is present afterwards, and the draft is cleared. A new label is appended with the toast `Category "<label>" added` (Success). A label already present leaves the list and the toast unchanged. |
| Admin.AdminDashboard.EditPayment | components/AdminDashboard.tsx:364-391 | Only the payment form changes. |
| Admin.AdminDashboard.PaymentSubmit | components/AdminDashboard.tsx:98-101 | The payment form record replaces the settings whole. |
| Admin.AdminDashboard.DeleteProductClick | components/AdminDashboard.tsx:174-175 | The product is deleted iff the dialog was confirmed. A declined dialog changes nothing. |
| Admin.AdminDashboard.DeleteCategoryClick | components/AdminDashboard.tsx:339-340 | The category is deleted iff the dialog was confirmed. A declined dialog changes nothing. |
| Gemini.StockLabel | lib/geminiService.ts:25 | The label is 'SOLD OUT' iff the product is sold out, and 'In Stock' iff it is not. |
| Gemini.ProductLine | lib/geminiService.ts:25 | Defined as `- name ($price) [status]: description`. ProductLineFields and ProductLineHasNoNewline state its properties. |
| Gemini.ProductList | lib/geminiService.ts:24-26 | Defined as the product lines joined by newlines. ProductListOneLinePerProduct splits it back. |
| Gemini.SystemInstruction | lib/geminiService.ts:28-44 | Defined as the fixed opening text, the inventory, then the fixed closing text. InstructionHoldsInventory states it holds the inventory. |
| Gemini.ProductLines | lib/geminiService.ts:24-25 | There is one line per product, in catalog order. |
| Gemini.ProductLineFields | lib/geminiService.ts:25 | A line opens with "- " and the name, shows both " ($<price>) " and "[<status>]", and ends with the description. |
| Gemini.ProductLineHasNoNewline | lib/geminiService.ts:25 | A product with single-line texts gives a line with no line break. |
| Gemini.ProductListOneLinePerProduct | lib/geminiService.ts:24-26 | For a non-empty catalog whose names and descriptions hold no line break, splitting the inventory text at newlines gives back exactly the product lines, in catalog order. |
| Gemini.InstructionHoldsInventory | lib/geminiService.ts:28-44 | The system instruction contains the whole inventory text. |
| Gemini.StripDataUrlPrefix | lib/geminiService.ts:51 | The payload is either the whole string, or a non-empty piece with no comma. |
| Gemini.StripDataUrl | lib/geminiService.ts:51 | `header,payload` strips to the payload. |
| Gemini.StripStopsAtSecondComma | lib/geminiService.ts:51 | Only the segment between the first and the second comma is kept. |
| Gemini.StripWithoutComma | lib/geminiService.ts:51 | A string with no comma is kept whole. |
| Gemini.StripEmptyPiece | lib/geminiService.ts:51 | An empty segment after the first comma keeps the string whole. |
| Gemini.BuildParts | lib/geminiService.ts:47-60 | The image part comes first and is present only for a truthy image, carrying the stripped data as image/jpeg. The text part is always present and always last. |
| Gemini.BuildRequest | lib/geminiService.ts:62-72 | The request names gemini-2.5-flash, the user role, temperature 0.7, the system instruction built from the catalog, and the ordered parts. |
| Gemini.Reply | lib/geminiService.ts:74-78 | The reply is never empty. It is the service's text when there is some, the "tangled in some thread" text when there is none, and the "quick nap" text when anything throws. |
| Seqs.Filter | app/page.tsx:85 | `filter` returns only elements that pass, keeps every element that passes, and is never longer than its input. |
| Seqs.FilterCounts | app/page.tsx:85 | `filter` keeps exactly as many copies of each passing element as the input has, and none of a failing one. |
| Seqs.FilterDropsOne | app/page.tsx:85 | A filter that rejects only element k returns the input without element k. |
| Seqs.FilterIsSubsequence | app/page.tsx:174 | `filter` preserves order. |
| Seqs.FilterKeepsDistinctBy | app/page.tsx:85 | `filter` keeps keys distinct. |
| Seqs.Split | lib/geminiService.ts:51 | `split` yields at least one piece, and no piece holds the separator. |
| Seqs.Join | lib/geminiService.ts:26 | A non-empty list's join starts with its first piece, and the separator follows it when more pieces come. JoinSplit and SplitJoin are its round trips with Split. |
| Seqs.JoinSplit | lib/geminiService.ts:51 | Joining the pieces of a split at the same separator gives back the string. |
| Seqs.SplitJoin | lib/geminiService.ts:26 | Splitting a join of separator-free pieces gives back the pieces. |
| Text.Trim | components/AdminDashboard.tsx:92-93 | `trim` is empty iff the text is all ECMAScript whitespace. Otherwise it is the slice from the first non-whitespace character to the last. |
| Text.TrimIdempotent | components/AdminDashboard.tsx:93 | Trimming a trimmed label changes nothing. |
| Text.TrimPadding | components/ChatWidget.tsx:43 | Whitespace around a text with non-whitespace ends is exactly what trim removes. |
| Text.Lower | app/page.tsx:176-177 | `toLowerCase` keeps the length and maps each character through the ASCII lowering. |
| Text.Contains | app/page.tsx:176-177 | Defined as: the needle is a prefix of some suffix of the text. ContainsAt states it as occurrence at an offset. |
| Text.ContainsAt | app/page.tsx:176-177 | `includes` holds iff the needle occurs at some offset of the text. |
| Text.ContainsInfix | app/page.tsx:176-177 | A text built as `a + needle + b` includes the needle. |
| Text.ContainsEmpty | app/page.tsx:176-177 | Every text includes the empty string, so an empty query matches every product. |
| Text.IntToString | lib/geminiService.ts:25 | The text is non-empty and starts with '-' iff the number is negative. The rest is decimal digits. |
| Text.IntRoundTrip | lib/geminiService.ts:25 | The price printed in a line reads back as the same integer. |
| Catalog.SeedCatalogWellFormed | lib/constants.ts:5-62 | The seed catalog has six products with distinct ids, each in one of the default categories. |
| Catalog.SeedSoldOut | lib/constants.ts:5-62 | Of the seed products, only the Rustic Sienna Bucket is sold out. |
| Scenarios.SoldOutBagStaysOut | components/ProductModal.tsx:84-87 | Adding a sold-out bag leaves the bag empty with no toast. |
| Scenarios.SeedCatalogShopping | components/ProductCard.tsx:52-55 | On the seed catalog, the sold-out Rustic Sienna Bucket stays out of the bag and the Latte Canvas Tote goes in, so the bag totals 85. |
| Scenarios.AddTwoRemoveOne | components/CartModal.tsx:36 | Two bags in and the first out: the total goes from the sum of both prices to the second bag's price. |
| Scenarios.GiftCheckout | components/CartModal.tsx:44-53 | A gift note without a message cannot reach payment. Once complete, finishing empties the bag, shows the gift-order text and closes the modal. |
| Scenarios.EmptyBagCannotProceed | components/CartModal.tsx:97 | An empty bag stays on the cart step. |
| Scenarios.BlankDraftIgnored | components/ChatWidget.tsx:43 | A draft of spaces sends nothing and adds nothing. |
| Scenarios.ChatTurn | components/ChatWidget.tsx:41-68 | A question goes out with the catalog, and a thrown call comes back as the nap text. |
| Scenarios.AddTrimmedCategory | components/AdminDashboard.tsx:90-96 | " Bags " is stored as "Bags", appended once with the `Category "Bags" added` toast, and the draft is cleared. |
| Scenarios.EditPrice | components/AdminDashboard.tsx:80-88 | Editing a bag's price and saving changes only that bag, even if the edit names another id. |
| Scenarios.AddNewBag | components/AdminDashboard.tsx:62-88 | A bag added under an id no product carries goes first, the catalog follows unchanged, and the ids stay distinct. |
| Scenarios.DeclinedDelete | components/AdminDashboard.tsx:174-175 | Declined deletions leave catalog and categories as they were. |

## Left out

- Persistence: loading the stores from `localStorage` and saving them back on change is not modelled. The constructor takes the initial catalog, categories and payment settings, whatever their origin.
- The call to the generative-language service and its lazily created client are not modelled. `BuildRequest` states the request that would be sent, and `Reply` takes what the call produced as an `Outcome`.
- Reading files: only a completed read is modelled (`ImageLoaded` in `Chat` and in `Admin`), as a method taking the resulting data URL. Choosing no file, a failed read, and reads that complete out of order are not modelled.
- Admin.AdminDashboard.AddNewClick: does not make the new id fresh. The source takes `Date.now()` as the id without checking it against the catalog, so the model takes the id from the caller. `Submit` and `Scenarios.AddNewBag` state that ids stay distinct when that id is fresh.
- Clock and randomness: cart line ids, product ids, message ids and toast ids come from `Date.now()`/`Math.random()` in the source. Here they are parameters (`AddToCart` requires a fresh line id), and toast ids are dropped.
- Checkout.Total: sums integer prices, whereas the source adds JavaScript numbers (floating point). `Number(…)` in the price field can also give NaN or fractions, and neither is modelled.
- Text.IntToString: prints every integer in plain decimal. JavaScript does so only below 10^21 in magnitude and uses exponent form above that; prices that large are not modelled.
- Text.Lower: lowers the ASCII letters A to Z only. JavaScript's `toLowerCase` also lowers other Unicode letters, so the search's case folding is modelled for ASCII text.
- Text.Trim: strings here are sequences of Unicode code points (Dafny characters), whereas JavaScript strings are sequences of UTF-16 code units. Lone surrogates and code-unit lengths are therefore not modelled. The whitespace set is ECMAScript's (white space and line terminators).
- Admin.AdminDashboard.EditForm: takes the edited product as a whole, so the per-field handlers and the price field's `Number(…)` conversion are not modelled separately.
- The toast's auto-dismiss timer is not modelled; only its close callback (`DismissToast`) is. The navbar, the JSX, the styles and the tailwind configuration are not modelled.
- The admin password prompt, the view switching (including the admin exit and its "Logged out of Admin" toast), the newsletter form, the product-details modal and the dashboard's tab switching are not modelled.
- The chat panel's open/close toggle and scrolling are not modelled. The product modal's own close after adding to the bag is not modelled.
- HTML form validation (`required` fields) is not modelled, so `Submit` accepts any form contents.
- Stale closures and batched React updates are not modelled. Every handler runs to completion on the current state.
- The cart modal's open flag is owned by the page, and its step state is owned by the modal. `CheckoutFlow` keeps both together.
- Chat.ChatWidget.BeginSend: hands the call's arguments to the caller rather than building the request. `Gemini.BuildRequest` states what is then sent.
