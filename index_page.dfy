/** The page controller: the current document, the chat transcript and
    whether the preview is shown. Which panel shows the chat is a pure
    function of that state. The one-second reply timer of
    `handleSendMessage` is an explicit event, `DeliverAiReply`; the random
    pick among the canned replies is its parameter. */
module IndexPage {
  import opened Wrappers
  import opened Strings
  import opened Types
  import opened ChatComponent

  /** The canned replies; the page never consults the document responder. */
  const AiResponses: seq<string> := [
    "I've found that information in the document. The key details are on page 1.",
    "Based on the document analysis, there are 3 main sections with relevant data.",
    "The document appears to be an invoice with payment details and line items.",
    "I've extracted the dates from the document. The main date is January 15, 2023.",
    "This looks like a contract document with signature fields and legal clauses."
  ]

  /** The greeting that opens the transcript of a newly uploaded document. */
  function Greeting(document: DocumentFile, now: nat): ChatMessage
  {
    ChatMessage("1", "I've analyzed your document \"" + document.name + "\". What would you like to know about it?", Ai, now)
  }

  /** The greeting is an assistant message that names the document. */
  lemma GreetingNamesDocument(document: DocumentFile, now: nat)
    ensures Greeting(document, now).role == Ai
    ensures Contains(Greeting(document, now).content, document.name)
  {
    ContainsPart("I've analyzed your document \"", document.name, "\". What would you like to know about it?");
  }

  /** The message `handleSendMessage` appends; its id is `Date.now()`. */
  function UserMessage(content: string, now: nat): ChatMessage
  {
    ChatMessage(NatToString(now), content, User, now)
  }

  datatype Panel = PreviewPanel | ChatPanel | EmptyPanel

  /** The middle column: the preview unless there is a document and the
      preview has been closed. */
  function MiddlePanel(hasDocument: bool, showPreview: bool): Panel
  {
    if !hasDocument || showPreview then PreviewPanel else ChatPanel
  }

  /** The right column: the chat when there is a document and the preview
      is shown, otherwise the "No Document Selected" placeholder. */
  function RightPanel(hasDocument: bool, showPreview: bool): Panel
  {
    if hasDocument && showPreview then ChatPanel else EmptyPanel
  }

  /** How many chat panels the page shows: none without a document, exactly
      one with a document. */
  function ChatPanelCount(hasDocument: bool, showPreview: bool): (n: nat)
    ensures n == if hasDocument then 1 else 0
  {
    (if MiddlePanel(hasDocument, showPreview) == ChatPanel then 1 else 0)
    + (if RightPanel(hasDocument, showPreview) == ChatPanel then 1 else 0)
  }

  /** With a document, the chat sits in the middle when the preview is
      closed and on the right when it is shown. */
  lemma ChatPanelPlacement(hasDocument: bool, showPreview: bool)
    ensures MiddlePanel(hasDocument, showPreview) == ChatPanel <==> hasDocument && !showPreview
    ensures RightPanel(hasDocument, showPreview) == ChatPanel <==> hasDocument && showPreview
  {
  }

  class Index {
    var activeFeature: FeatureType
    var document: Option<DocumentFile>
    var messages: seq<ChatMessage>
    var showPreview: bool
    /** Reply timers started by `handleSendMessage` and not yet fired. */
    var pendingReplies: nat

    /** Before the first upload the transcript is empty, the preview is
        closed and no reply is pending: the chat cannot be reached. */
    ghost predicate Valid()
      reads this
    {
      document.None? ==> messages == [] && !showPreview && pendingReplies == 0
    }

    /** The number of chat panels on screen. */
    function ChatPanels(): nat
      reads this
    {
      ChatPanelCount(document.Some?, showPreview)
    }

    constructor ()
      ensures Valid()
      ensures activeFeature == Ocr && document.None? && messages == [] && !showPreview
      ensures pendingReplies == 0 && ChatPanels() == 0
    {
      activeFeature := Ocr;
      document := None;
      messages := [];
      showPreview := false;
      pendingReplies := 0;
    }

    /** The feature toggle's `onChange`. */
    method SelectFeature(feature: FeatureType)
      requires Valid()
      modifies this`activeFeature
      ensures Valid() && activeFeature == feature
    {
      activeFeature := feature;
    }

    /** `handleUploadComplete` followed by the effect on `document`: the new
        document replaces the old one wholesale, the transcript becomes the
        single greeting naming it, and the preview is shown. Reply timers
        already running are not cancelled. */
    method HandleUploadComplete(uploaded: DocumentFile, now: nat)
      requires Valid()
      modifies this`document, this`messages, this`showPreview
      ensures Valid()
      ensures document == Some(uploaded)
      ensures messages == [Greeting(uploaded, now)]
      ensures showPreview && ChatPanels() == 1
    {
      document := Some(uploaded);
      messages := [Greeting(uploaded, now)];
      showPreview := true;
    }

    /** `handleSendMessage`: the user's message goes at the end, earlier
        messages are kept, and a reply timer starts. Only the chat calls it,
        and the chat is shown only with a document. */
    method HandleSendMessage(content: string, now: nat)
      requires Valid() && document.Some?
      modifies this`messages, this`pendingReplies
      ensures Valid()
      ensures messages == old(messages) + [UserMessage(content, now)]
      ensures pendingReplies == old(pendingReplies) + 1
    {
      messages := messages + [UserMessage(content, now)];
      pendingReplies := pendingReplies + 1;
    }

    /** A reply timer fires: one of the five canned replies, chosen by
        `pick`, is appended as an assistant message. */
    method DeliverAiReply(pick: nat, now: nat)
      requires Valid() && pendingReplies > 0 && pick < |AiResponses|
      modifies this`messages, this`pendingReplies
      ensures Valid()
      ensures messages == old(messages) + [ChatMessage(NatToString(now + 1), AiResponses[pick], Ai, now)]
      ensures pendingReplies == old(pendingReplies) - 1
    {
      messages := messages + [ChatMessage(NatToString(now + 1), AiResponses[pick], Ai, now)];
      pendingReplies := pendingReplies - 1;
    }

    /** `handleNewChat`: the transcript is emptied; the document and the
        preview flag stay. */
    method HandleNewChat()
      requires Valid()
      modifies this`messages
      ensures Valid() && messages == []
    {
      messages := [];
    }

    /** `closePreview`. */
    method ClosePreview()
      requires Valid()
      modifies this`showPreview
      ensures Valid() && !showPreview
      ensures ChatPanels() == old(ChatPanels())
    {
      showPreview := false;
    }

    /** The chat's submit wired to `handleSendMessage`: a non-blank input is
        appended as it was typed, a blank one changes nothing. */
    method SubmitFromChat(chat: Chat, now: nat)
      requires Valid() && document.Some?
      modifies this`messages, this`pendingReplies, chat`input
      ensures Valid()
      ensures !SendDisabled(old(chat.input)) ==>
                messages == old(messages) + [UserMessage(old(chat.input), now)] && chat.input == ""
      ensures SendDisabled(old(chat.input)) ==>
                messages == old(messages) && chat.input == old(chat.input)
      ensures !SendDisabled(old(chat.input)) ==> pendingReplies == old(pendingReplies) + 1
      ensures SendDisabled(old(chat.input)) ==> pendingReplies == old(pendingReplies)
    {
      var sent := chat.HandleSubmit();
      if sent.Some? {
        HandleSendMessage(sent.value, now);
      }
    }
  }

  /** A session seen from outside: upload, send, receive a reply, start a
      new chat. The transcript then holds the greeting, the user's message
      and one canned reply, in that order; after the new chat it is empty
      while the document stays. */
  method ChatSessionScenario(uploaded: DocumentFile, content: string, pick: nat, t0: nat, t1: nat, t2: nat)
    returns (afterReply: seq<ChatMessage>, afterNewChat: seq<ChatMessage>, current: Option<DocumentFile>)
    requires pick < |AiResponses|
    ensures |afterReply| == 3
    ensures afterReply[0] == Greeting(uploaded, t0)
    ensures afterReply[1].role == User && afterReply[1].content == content
    ensures afterReply[2].role == Ai && afterReply[2].content in AiResponses
    ensures afterNewChat == [] && current == Some(uploaded)
  {
    var page := new Index();
    page.HandleUploadComplete(uploaded, t0);
    page.HandleSendMessage(content, t1);
    page.DeliverAiReply(pick, t2);
    afterReply := page.messages;
    page.HandleNewChat();
    afterNewChat := page.messages;
    current := page.document;
  }

  /** Typing into the chat and submitting, then letting a reply timer fire
      if one started. A non-blank input is appended as typed, followed by a
      canned reply; a blank input leaves the greeting alone and starts no
      reply timer. */
  method ChatSubmitScenario(uploaded: DocumentFile, typed: string, pick: nat, t0: nat, t1: nat, t2: nat)
    returns (transcript: seq<ChatMessage>, pending: nat, input: string)
    requires pick < |AiResponses|
    ensures SendDisabled(typed) ==>
              transcript == [Greeting(uploaded, t0)] && pending == 0 && input == typed
    ensures !SendDisabled(typed) ==>
              && |transcript| == 3
              && transcript[..2] == [Greeting(uploaded, t0), UserMessage(typed, t1)]
              && transcript[2].role == Ai && transcript[2].content == AiResponses[pick]
              && pending == 0 && input == ""
  {
    var page := new Index();
    var chat := new Chat();
    page.HandleUploadComplete(uploaded, t0);
    chat.ChangeInput(typed);
    page.SubmitFromChat(chat, t1);
    if page.pendingReplies > 0 {
      page.DeliverAiReply(pick, t2);
    }
    transcript, pending, input := page.messages, page.pendingReplies, chat.input;
  }
}
