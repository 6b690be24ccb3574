/** The shopping assistant's chat panel (components/ChatWidget.tsx): the
    transcript, the draft text, the attached image and the loading flag. A
    send is split in two: `BeginSend` is the part of the submit handler
    before the awaited call and returns the arguments of that call;
    `ReceiveReply` is the part after it, given what the call produced. */
module Chat {
  import opened Types
  import opened Text
  import opened Gemini

  const GreetingText: string := "Hi there! I'm Fifi's AI assistant. I love chatting about our handmade bags! Ask me anything or upload a photo for inspiration! 🌸"

  /** The transcript's first entry. */
  const Greeting: ChatMessage := ChatMessage("1", Model, GreetingText, None)

  /** The submit handler returns at once for a draft that trims to nothing
      with no image attached, or while a reply is pending. */
  predicate SubmitIgnored(inputText: string, selectedImage: Option<string>, isLoading: bool) {
    (Trim(inputText) == "" && !Present(selectedImage)) || isLoading
  }

  /** The send button is disabled for an empty (untrimmed) draft with no
      image, or while a reply is pending. */
  predicate SendDisabled(inputText: string, selectedImage: Option<string>, isLoading: bool) {
    (inputText == "" && !Present(selectedImage)) || isLoading
  }

  /** Whatever the button lets through and the handler accepts, the button
      also allowed: the handler's guard is the stricter one. */
  lemma AcceptedImpliesEnabled(inputText: string, selectedImage: Option<string>, isLoading: bool)
    ensures !SubmitIgnored(inputText, selectedImage, isLoading) ==> !SendDisabled(inputText, selectedImage, isLoading)
  {
    if inputText == "" {
      assert AllWhitespace(inputText);
    }
  }

  /** A whitespace-only draft enables the button, yet the handler ignores
      it. */
  lemma WhitespaceDraftIgnored(inputText: string)
    requires inputText != "" && AllWhitespace(inputText)
    ensures !SendDisabled(inputText, None, false) && SubmitIgnored(inputText, None, false)
  {
  }

  /** The message the user's submit appends: the draft as typed, and the
      image when one is attached (a falsy image is dropped). */
  function UserMessage(id: string, inputText: string, selectedImage: Option<string>): (m: ChatMessage)
    ensures m.role == User && m.text == inputText && m.id == id
    ensures m.image.Some? <==> Present(selectedImage)
    ensures m.image.Some? ==> m.image == selectedImage && m.image.value != ""
  {
    ChatMessage(id, User, inputText, if Present(selectedImage) then selectedImage else None)
  }

  /** The message the reply appends. */
  function ModelMessage(id: string, outcome: Outcome): (m: ChatMessage)
    ensures m.role == Model && m.text != "" && m.image == None && m.id == id
    ensures outcome.Answered? && outcome.text != "" ==> m.text == outcome.text
  {
    ChatMessage(id, Model, Reply(outcome), None)
  }

  /** The arguments of one call to the assistant: the message, the catalog
      it is briefed with, and the image, if any. */
  datatype Outgoing = Outgoing(message: string, products: seq<Product>, image: Option<string>)

  /** A transcript entry the user could have sent: it has text that is not
      only whitespace, or a non-empty image. */
  predicate Sendable(m: ChatMessage) {
    !AllWhitespace(m.text) || (m.image.Some? && m.image.value != "")
  }

  /** The transcript opens with the greeting and then alternates: the
      user's turns at odd positions, the assistant's at even ones. Every user
      turn was sendable and every assistant turn has text. */
  predicate WellFormedTranscript(ms: seq<ChatMessage>) {
    && |ms| >= 1
    && ms[0] == Greeting
    && (forall i :: 0 <= i < |ms| ==> ms[i].role == (if i % 2 == 0 then Model else User))
    && (forall i :: 0 <= i < |ms| && ms[i].role == User ==> Sendable(ms[i]))
    && (forall i :: 0 <= i < |ms| && ms[i].role == Model ==> ms[i].text != "")
  }

  /** A transcript stays well formed when the party whose turn it is adds a
      proper entry. */
  lemma TranscriptAppend(ms: seq<ChatMessage>, m: ChatMessage)
    requires WellFormedTranscript(ms)
    requires m.role == (if |ms| % 2 == 0 then Model else User)
    requires m.role == User ==> Sendable(m)
    requires m.role == Model ==> m.text != ""
    ensures WellFormedTranscript(ms + [m])
  {
    var ms' := ms + [m];
    forall i | 0 <= i < |ms'|
      ensures ms'[i].role == (if i % 2 == 0 then Model else User)
      ensures ms'[i].role == User ==> Sendable(ms'[i])
      ensures ms'[i].role == Model ==> ms'[i].text != ""
    {
      if i < |ms| {
        assert ms'[i] == ms[i];
      }
    }
  }

  class ChatWidget {
    var messages: seq<ChatMessage>
    var inputText: string
    var isLoading: bool
    var selectedImage: Option<string>

    /** The transcript is well formed, and a reply is pending exactly when
        the last entry is the user's. */
    ghost predicate Valid()
      reads this
    {
      WellFormedTranscript(messages) && (isLoading <==> |messages| % 2 == 0)
    }

    constructor()
      ensures Valid()
      ensures messages == [Greeting] && inputText == "" && !isLoading && selectedImage == None
    {
      messages := [Greeting];
      inputText := "";
      isLoading := false;
      selectedImage := None;
    }

    /** The draft field's change handler; it stays live while a reply is
        pending. */
    method TypeText(text: string)
      requires Valid()
      modifies this
      ensures Valid()
      ensures inputText == text
      ensures messages == old(messages) && isLoading == old(isLoading) && selectedImage == old(selectedImage)
    {
      inputText := text;
    }

    /** The file reader's completion: the data URL becomes the attachment,
        replacing any earlier one. Choosing no file never completes. */
    method ImageLoaded(dataUrl: string)
      requires Valid()
      modifies this
      ensures Valid()
      ensures selectedImage == Some(dataUrl)
      ensures messages == old(messages) && isLoading == old(isLoading) && inputText == old(inputText)
    {
      selectedImage := Some(dataUrl);
    }

    /** The attachment's remove button. */
    method ClearImage()
      requires Valid()
      modifies this
      ensures Valid()
      ensures selectedImage == None
      ensures messages == old(messages) && isLoading == old(isLoading) && inputText == old(inputText)
    {
      selectedImage := None;
    }

    /** The submit handler up to the awaited call. An ignored submit changes
        nothing and calls nothing. Otherwise the user's message is appended,
        the draft and the attachment are cleared, the panel waits, and the
        assistant is called with the draft as typed, the current catalog and
        the attachment (a falsy one is dropped). */
    method BeginSend(id: string, products: seq<Product>) returns (call: Option<Outgoing>)
      requires Valid()
      modifies this
      ensures Valid()
      ensures SubmitIgnored(old(inputText), old(selectedImage), old(isLoading)) ==>
        && call == None
        && messages == old(messages) && inputText == old(inputText)
        && isLoading == old(isLoading) && selectedImage == old(selectedImage)
      ensures !SubmitIgnored(old(inputText), old(selectedImage), old(isLoading)) ==>
        && messages == old(messages) + [UserMessage(id, old(inputText), old(selectedImage))]
        && inputText == "" && selectedImage == None && isLoading
        && call == Some(Outgoing(old(inputText), products, UserMessage(id, old(inputText), old(selectedImage)).image))
    {
      var text, image := inputText, selectedImage;
      if SubmitIgnored(text, image, isLoading) {
        return None;
      }
      assert !AllWhitespace(text) || Present(image);
      var userMessage := UserMessage(id, text, image);
      assert Sendable(userMessage);
      TranscriptAppend(messages, userMessage);
      messages := messages + [userMessage];
      var imageToSend := userMessage.image;
      inputText := "";
      selectedImage := None;
      isLoading := true;
      call := Some(Outgoing(userMessage.text, products, imageToSend));
    }

    /** The submit handler after the awaited call: the reply (or the
        fallback text) is appended and the panel stops waiting. */
    method ReceiveReply(id: string, outcome: Outcome)
      requires Valid() && isLoading
      modifies this
      ensures Valid()
      ensures messages == old(messages) + [ModelMessage(id, outcome)]
      ensures !isLoading
      ensures inputText == old(inputText) && selectedImage == old(selectedImage)
    {
      TranscriptAppend(messages, ModelMessage(id, outcome));
      messages := messages + [ModelMessage(id, outcome)];
      isLoading := false;
    }
  }
}
