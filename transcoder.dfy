/**
 * The message transcoder of the fengli bot: it turns a session transcript
 * into the query to send and the tagged chat history that precedes it.
 */
module Transcoder {
  import opened Wrappers

  /** The `role` key of a session message; `Unknown` is any other value, or a missing key. */
  datatype Role = User | Assistant | System | Unknown

  /** One session message; `content` is `None` when the message has no content (Python `None`). */
  datatype Message = Message(role: Role, content: Option<string>)

  /**
   * One entry of the converted chat history: the dictionary with keys
   * `role`, `type` (present only for assistant entries), `content` and `content_type`.
   */
  datatype Entry = Entry(role: string, typeTag: Option<string>, content: Option<string>, contentType: string)

  /** The pair `(query, chat_history)` returned on success. */
  datatype Converted = Converted(query: Option<string>, history: seq<Entry>)

  /** The two exceptions the transcoder can raise. */
  datatype TranscodeError =
    | PopFromEmptyList  // `pop()` on an empty history (IndexError)
    | NoUserMessage     // the explicit `Exception('no user message')`

  /** The messages the transcoder keeps: user and assistant ones. */
  predicate IsDialogue(m: Message) {
    m.role == User || m.role == Assistant
  }

  /** The user and assistant messages of `messages`, in their original order. */
  function Dialogue(messages: seq<Message>): (kept: seq<Message>)
    ensures |kept| <= |messages|
    ensures forall i :: 0 <= i < |kept| ==> IsDialogue(kept[i])
  {
    if messages == [] then []
    else
      var init := Dialogue(messages[..|messages| - 1]);
      var last := messages[|messages| - 1];
      if IsDialogue(last) then init + [last] else init
  }

  /** The history entry built for one kept message. */
  function Tag(m: Message): Entry
    requires IsDialogue(m)
  {
    if m.role == User then Entry("user", None, m.content, "text")
    else Entry("assistant", Some("answer"), m.content, "text")
  }

  /** The list the loop of the transcoder builds before it pops: every kept message, tagged. */
  function Tagged(messages: seq<Message>): seq<Entry> {
    var kept := Dialogue(messages);
    seq(|kept|, i requires 0 <= i < |kept| => Tag(kept[i]))
  }

  /** The transcoder as a value: pop the last tagged entry and check that it is a non-empty user entry. */
  function ConvertMessagesFormat(messages: seq<Message>): Result<Converted, TranscodeError> {
    var chatHistory := Tagged(messages);
    if chatHistory == [] then Failure(PopFromEmptyList)
    else
      var userMessage := chatHistory[|chatHistory| - 1];
      if userMessage.role != "user" || userMessage.content == Some("") then Failure(NoUserMessage)
      else Success(Converted(userMessage.content, chatHistory[..|chatHistory| - 1]))
  }

  /** The transcoder as the source runs it: one pass that appends, then a pop and a check. */
  method ConvertMessages(messages: seq<Message>) returns (r: Result<Converted, TranscodeError>)
    ensures r == ConvertMessagesFormat(messages)
  {
    var chatHistory: seq<Entry> := [];
    for i := 0 to |messages|
      invariant chatHistory == Tagged(messages[..i])
    {
      var message := messages[i];
      TaggedSnoc(messages[..i], message);
      assert messages[..i + 1] == messages[..i] + [message];
      match message.role {
        case User =>
          chatHistory := chatHistory + [Entry("user", None, message.content, "text")];
        case Assistant =>
          chatHistory := chatHistory + [Entry("assistant", Some("answer"), message.content, "text")];
        case System =>
        case Unknown =>
      }
    }
    assert messages[..|messages|] == messages;
    if chatHistory == [] {
      return Failure(PopFromEmptyList);
    }
    var userMessage := chatHistory[|chatHistory| - 1];
    chatHistory := chatHistory[..|chatHistory| - 1];
    if userMessage.role != "user" || userMessage.content == Some("") {
      return Failure(NoUserMessage);
    }
    return Success(Converted(userMessage.content, chatHistory));
  }

  /** Appending one message appends its entry when it is kept, and nothing otherwise. */
  lemma TaggedSnoc(messages: seq<Message>, m: Message)
    ensures Tagged(messages + [m]) == Tagged(messages) + (if IsDialogue(m) then [Tag(m)] else [])
  {
    assert (messages + [m])[..|messages + [m]| - 1] == messages;
  }

  /** Filtering distributes over concatenation, so kept messages keep their relative order. */
  lemma {:induction false} DialogueAppend(a: seq<Message>, b: seq<Message>)
    ensures Dialogue(a + b) == Dialogue(a) + Dialogue(b)
    decreases |b|
  {
    if b == [] {
      assert a + b == a;
    } else {
      var b' := b[..|b| - 1];
      assert (a + b)[..|a + b| - 1] == a + b';
      DialogueAppend(a, b');
    }
  }

  /** Every kept message comes from the input, and every user or assistant message of the input is kept. */
  lemma {:induction false} DialogueMembers(messages: seq<Message>)
    ensures forall m :: m in Dialogue(messages) ==> m in messages
    ensures forall i :: 0 <= i < |messages| && IsDialogue(messages[i]) ==> messages[i] in Dialogue(messages)
  {
    if messages != [] {
      var init := messages[..|messages| - 1];
      DialogueMembers(init);
      assert forall i :: 0 <= i < |init| ==> init[i] == messages[i];
    }
  }

  /** Nothing is kept exactly when the input has no user or assistant message. */
  lemma {:induction false} DialogueEmptyIff(messages: seq<Message>)
    ensures Dialogue(messages) == [] <==> forall i :: 0 <= i < |messages| ==> !IsDialogue(messages[i])
  {
    if messages != [] {
      var init := messages[..|messages| - 1];
      DialogueEmptyIff(init);
      assert forall i :: 0 <= i < |init| ==> init[i] == messages[i];
    }
  }

  /**
   * The transcoder fails exactly when the last user or assistant message is missing,
   * is an assistant message, or has empty-string content; it fails at the pop exactly
   * when the input has no user or assistant message at all.
   */
  lemma ConvertFailsIff(messages: seq<Message>)
    ensures var kept := Dialogue(messages);
      ConvertMessagesFormat(messages).Failure? <==>
        (kept == [] || kept[|kept| - 1].role == Assistant || kept[|kept| - 1].content == Some(""))
    ensures ConvertMessagesFormat(messages) == Failure(PopFromEmptyList) <==>
        forall i :: 0 <= i < |messages| ==> !IsDialogue(messages[i])
  {
    DialogueEmptyIff(messages);
  }

  /**
   * On success the query is the content of the last user or assistant message, which is a
   * user message, and the history is every earlier kept message, tagged, with its content unchanged.
   */
  lemma ConvertSuccess(messages: seq<Message>)
    requires ConvertMessagesFormat(messages).Success?
    ensures var kept := Dialogue(messages);
      var c := ConvertMessagesFormat(messages).value;
      && kept != []
      && kept[|kept| - 1].role == User
      && c.query == kept[|kept| - 1].content
      && |c.history| == |kept| - 1
      && forall i :: 0 <= i < |c.history| ==>
           && c.history[i].content == kept[i].content
           && c.history[i].contentType == "text"
           && (c.history[i].role == "user" <==> kept[i].role == User)
           && (c.history[i].role == "assistant" <==> kept[i].role == Assistant)
           && (c.history[i].typeTag == Some("answer") <==> kept[i].role == Assistant)
           && (c.history[i].typeTag == None <==> kept[i].role == User)
  {
  }

  /**
   * A transcript that ends in a user message with content other than the empty string
   * converts to that content as the query and the rest of the transcript, system and
   * unknown messages dropped, as the history.
   */
  lemma EndsWithUserMessage(prefix: seq<Message>, content: Option<string>)
    requires content != Some("")
    ensures ConvertMessagesFormat(prefix + [Message(User, content)]) == Success(Converted(content, Tagged(prefix)))
  {
    var m := Message(User, content);
    TaggedSnoc(prefix, m);
    var t := Tagged(prefix + [m]);
    assert t[..|t| - 1] == Tagged(prefix);
  }

  /** A transcript whose last message is a user message with empty-string content fails the check. */
  lemma EndsWithEmptyUserMessage(prefix: seq<Message>)
    ensures ConvertMessagesFormat(prefix + [Message(User, Some(""))]) == Failure(NoUserMessage)
  {
    TaggedSnoc(prefix, Message(User, Some("")));
  }

  /** A transcript whose last message is an assistant message fails the check. */
  lemma EndsWithAssistantMessage(prefix: seq<Message>, content: Option<string>)
    ensures ConvertMessagesFormat(prefix + [Message(Assistant, content)]) == Failure(NoUserMessage)
  {
    TaggedSnoc(prefix, Message(Assistant, content));
  }

  /** A trailing system or unknown-role message changes nothing: only the last kept message is checked. */
  lemma TrailingNonDialogueIgnored(messages: seq<Message>, m: Message)
    requires !IsDialogue(m)
    ensures ConvertMessagesFormat(messages + [m]) == ConvertMessagesFormat(messages)
  {
    TaggedSnoc(messages, m);
  }
}
