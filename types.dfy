/** The records the storefront passes around (lib/types.ts). */
module Types {

  datatype Option<+T> = None | Some(value: T)

  /** JavaScript truthiness of an optional string: present and non-empty. */
  predicate Present(o: Option<string>) {
    o.Some? && o.value != ""
  }

  /** A catalog entry. `isNew` and `soldOut` are optional in the source; a
      missing flag reads as false, which is how every consumer treats it. */
  datatype Product = Product(
    id: string,
    name: string,
    price: int,
    description: string,
    image: string,
    category: string,
    isNew: bool,
    soldOut: bool)

  /** A cart line: a snapshot of the product at add time plus its line id. */
  datatype CartItem = CartItem(item: Product, cartId: string)

  datatype Role = User | Model

  datatype ChatMessage = ChatMessage(id: string, role: Role, text: string, image: Option<string>)

  datatype PaymentDetails = PaymentDetails(
    bankName: string,
    accountName: string,
    accountNumber: string,
    instructions: string)

  datatype GiftOptions = GiftOptions(
    isGift: bool,
    recipientName: string,
    senderName: string,
    message: string)

  datatype ToastKind = Success | Error | Info

  /** The single visible notification. */
  datatype ToastMessage = ToastMessage(message: string, kind: ToastKind)

  /** The gift options a checkout session starts from and is reset to. */
  const DefaultGiftOptions: GiftOptions := GiftOptions(false, "", "", "")
}
