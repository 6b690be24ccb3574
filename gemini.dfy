/** The request the assistant sends to the generative-language service and
    the reply text it hands back (lib/geminiService.ts). The call itself is
    external: its result enters as an `Outcome`. */
module Gemini {
  import opened Types
  import opened Seqs
  import opened Text

  const ModelName: string := "gemini-2.5-flash"
  const ImageMimeType: string := "image/jpeg"
  const RequestRole: string := "user"
  const Temperature: real := 0.7

  /** The reply used when the service answers with no text. */
  const TangledReply: string := "I'm so sorry, I got a little tangled in some thread! Could you say that again? 🍂"
  /** The reply used when anything in the exchange throws. */
  const NapReply: string := "Oh no! My creative brain is taking a quick nap. Please try again in a moment! 💤"

  /** The persona text around the inventory in the system instruction. */
  const InstructionHead: string :=
    "\n" +
    "You are Fifi, the passionate owner and creator of FIFI-Bags.\n" +
    "Your personality is warm, grounded, and rustic. You absolutely LOVE earth tones, especially rich browns, beiges, and terracottas.\n" +
    "You sell handmade bags.\n" +
    "You are chatting with a customer on your website.\n" +
    "\n" +
    "Here is your current product inventory:\n"
  const InstructionTail: string :=
    "\n" +
    "\n" +
    "Key behaviors:\n" +
    "1. Always be polite and welcoming. Use emojis like 🍂, 👜, 🤎, ✨ occasionally.\n" +
    "2. If a customer asks about a specific bag, give them details. If it is marked [SOLD OUT], apologize and suggest a similar item or a custom order.\n" +
    "3. If they ask for a custom order, tell them you accept custom leather/fabric requests (especially in earth tones!) and the lead time is usually 2 weeks.\n" +
    "4. If the user uploads an image, analyze it for style or color inspiration and suggest one of your bags that matches the vibe.\n" +
    "5. Keep responses concise (under 3 sentences usually) unless explaining a detailed process.\n" +
    "6. Do not make up products that are not in the inventory list provided above.\n"

  function StockLabel(p: Product): (status: string)
    ensures status == "SOLD OUT" <==> p.soldOut
    ensures status == "In Stock" <==> !p.soldOut
  {
    if p.soldOut then "SOLD OUT" else "In Stock"
  }

  /** One inventory line: `- name ($price) [status]: description`. */
  function ProductLine(p: Product): string {
    "- " + p.name + " ($" + IntToString(p.price) + ") [" + StockLabel(p) + "]: " + p.description
  }

  function ProductLines(ps: seq<Product>): (lines: seq<string>)
    ensures |lines| == |ps|
    ensures forall i :: 0 <= i < |ps| ==> lines[i] == ProductLine(ps[i])
  {
    if ps == [] then [] else [ProductLine(ps[0])] + ProductLines(ps[1..])
  }

  /** The inventory text: the product lines in catalog order joined by
      newlines. */
  function ProductList(ps: seq<Product>): string {
    Join(ProductLines(ps), '\n')
  }

  /** The system instruction: persona text with the inventory between the
      fixed opening and closing passages. */
  function SystemInstruction(ps: seq<Product>): string {
    InstructionHead + ProductList(ps) + InstructionTail
  }

  /** The instruction briefs the model with the whole current inventory. */
  lemma InstructionHoldsInventory(ps: seq<Product>)
    ensures Contains(SystemInstruction(ps), ProductList(ps))
  {
    ContainsInfix(InstructionHead, ProductList(ps), InstructionTail);
  }

  /** A product whose name and description hold no line break. */
  predicate SingleLine(p: Product) {
    '\n' !in p.name && '\n' !in p.description
  }

  lemma ProductLineHasNoNewline(p: Product)
    requires SingleLine(p)
    ensures '\n' !in ProductLine(p)
  {
    var digits := NatToString(if p.price < 0 then -p.price else p.price);
    assert '\n' !in digits;
  }

  /** Each inventory line opens with the bullet and the name, ends with the
      description, and shows the price and then the stock status between
      them. */
  lemma ProductLineFields(p: Product)
    ensures "- " + p.name <= ProductLine(p)
    ensures Contains(ProductLine(p), " ($" + IntToString(p.price) + ") ")
    ensures Contains(ProductLine(p), "[" + StockLabel(p) + "]")
    ensures |p.description| <= |ProductLine(p)|
    ensures ProductLine(p)[|ProductLine(p)| - |p.description|..] == p.description
  {
    var head := "- " + p.name;
    var price := " ($" + IntToString(p.price) + ") ";
    var status := "[" + StockLabel(p) + "]";
    var tail := ": " + p.description;
    LineShape(ProductLine(p), head, price, status, tail);
    ContainsInfix(head, price, status + tail);
    ContainsInfix(head + price, status, tail);
  }

  lemma LineShape(line: string, head: string, price: string, status: string, tail: string)
    requires line == head + price + status + tail
    ensures line == head + price + (status + tail)
    ensures line == (head + price) + status + tail
    ensures head <= line
  {
    assert line[..|head|] == head;
  }

  /** Reading the inventory text line by line gives one line per product, in
      catalog order. */
  lemma {:induction false} ProductListOneLinePerProduct(ps: seq<Product>)
    requires ps != []
    requires forall i :: 0 <= i < |ps| ==> SingleLine(ps[i])
    ensures Split(ProductList(ps), '\n') == ProductLines(ps)
  {
    var lines := ProductLines(ps);
    forall i | 0 <= i < |lines| ensures '\n' !in lines[i] {
      ProductLineHasNoNewline(ps[i]);
    }
    SplitJoin(lines, '\n');
  }

  /** `imageBase64.split(',')[1] || imageBase64`: the piece between the
      first and the second comma, or the whole string when there is no comma
      or that piece is empty. */
  function StripDataUrlPrefix(image: string): (data: string)
    ensures data == image || (data != "" && ',' !in data)
  {
    var pieces := Split(image, ',');
    if |pieces| > 1 && pieces[1] != "" then pieces[1] else image
  }

  /** A data URL `header,payload` yields its payload. */
  lemma StripDataUrl(header: string, payload: string)
    requires ',' !in header && ',' !in payload && payload != ""
    ensures StripDataUrlPrefix(header + "," + payload) == payload
  {
    SplitJoin([header, payload], ',');
    assert Join([header, payload], ',') == header + "," + payload;
  }

  /** Only the piece up to the second comma is kept. */
  lemma StripStopsAtSecondComma(header: string, payload: string, rest: string)
    requires ',' !in header && ',' !in payload && payload != ""
    ensures StripDataUrlPrefix(header + "," + payload + "," + rest) == payload
  {
    SplitAfterPiece(payload, ',', rest);
    SplitAfterPiece(header, ',', payload + "," + rest);
    assert header + "," + payload + "," + rest == header + [','] + (payload + [','] + rest);
  }

  lemma StripWithoutComma(image: string)
    requires ',' !in image
    ensures StripDataUrlPrefix(image) == image
  {
    SplitWithoutSeparator(image, ',');
  }

  /** An empty piece after the first comma leaves the string as it is. */
  lemma StripEmptyPiece(header: string, rest: string)
    requires ',' !in header && (rest == "" || rest[0] == ',')
    ensures StripDataUrlPrefix(header + "," + rest) == header + "," + rest
  {
    SplitAfterPiece(header, ',', rest);
    var pieces := Split(rest, ',');
    if rest != "" {
      assert pieces[0] == "";
    }
  }

  datatype Part = InlineData(mimeType: string, data: string) | TextPart(text: string)

  datatype Request = Request(
    model: string,
    role: string,
    parts: seq<Part>,
    systemInstruction: string,
    temperature: real)

  /** The content parts, built by successive pushes: the image part first when
      an image is given, then always the text part. */
  method BuildParts(message: string, image: Option<string>) returns (parts: seq<Part>)
    ensures |parts| == (if Present(image) then 2 else 1)
    ensures parts[|parts| - 1] == TextPart(message)
    ensures Present(image) ==> parts[0] == InlineData(ImageMimeType, StripDataUrlPrefix(image.value))
  {
    parts := [];
    if Present(image) {
      var data := StripDataUrlPrefix(image.value);
      parts := parts + [InlineData(ImageMimeType, data)];
    }
    parts := parts + [TextPart(message)];
  }

  /** The generate-content request for one chat turn. */
  method BuildRequest(message: string, products: seq<Product>, image: Option<string>) returns (request: Request)
    ensures request.model == ModelName && request.role == RequestRole && request.temperature == Temperature
    ensures request.systemInstruction == SystemInstruction(products)
    ensures |request.parts| == (if Present(image) then 2 else 1)
    ensures request.parts[|request.parts| - 1] == TextPart(message)
    ensures Present(image) ==> request.parts[0] == InlineData(ImageMimeType, StripDataUrlPrefix(image.value))
  {
    var parts := BuildParts(message, image);
    request := Request(ModelName, RequestRole, parts, SystemInstruction(products), Temperature);
  }

  /** What the external call produced: a response (whose text may be empty or
      missing, written "") or a thrown error. */
  datatype Outcome = Answered(text: string) | Threw

  /** The string `sendMessageToGemini` resolves to: never an error and never
      empty. */
  function Reply(outcome: Outcome): (reply: string)
    ensures reply != ""
    ensures outcome.Answered? && outcome.text != "" ==> reply == outcome.text
    ensures outcome.Answered? && outcome.text == "" ==> reply == TangledReply
    ensures outcome.Threw? ==> reply == NapReply
  {
    match outcome
    case Answered(text) => if text != "" then text else TangledReply
    case Threw => NapReply
  }
}
