/** The chat page: the message history, the input box and the loading flag,
    and the send handler that moves between them. The assistant's answer
    comes from outside, so it enters as a parameter. */
module Chatbot {
  import opened Wrappers
  import opened Strings

  datatype Role = User | Model

  datatype ChatMessage = ChatMessage(role: Role, content: string)

  /** How a call to the assistant ended. */
  datatype BotOutcome = Replied(response: string) | Failed

  const ErrorReply := "Sorry, I encountered an error. Please try again."

  /** `!input.trim()`: the input holds nothing but white space. */
  function IsBlank(input: string): (blank: bool)
    ensures blank <==> AllWhitespace(input)
  {
    Trim(input) == []
  }

  /** The text of the message the assistant's outcome adds. */
  function ReplyText(outcome: BotOutcome): (text: string)
    ensures outcome.Replied? ==> text == outcome.response
    ensures outcome.Failed? ==> text == ErrorReply
  {
    match outcome
    case Replied(response) => response
    case Failed => ErrorReply
  }

  /** User and assistant messages take turns, starting with the user. */
  predicate Alternates(messages: seq<ChatMessage>) {
    forall i :: 0 <= i < |messages| ==> messages[i].role == (if i % 2 == 0 then User else Model)
  }

  class ChatPage {
    var messages: seq<ChatMessage>
    var input: string
    var isLoading: bool

    /** Every message the user sent has its answer, except the last one
        while its answer is awaited; while waiting, the input is empty (it
        was cleared and is disabled). */
    predicate Valid()
      reads this
    {
      && Alternates(messages)
      && (isLoading <==> |messages| % 2 == 1)
      && (isLoading ==> input == [])
    }

    /** An empty conversation. */
    constructor()
      ensures Valid()
      ensures messages == [] && input == [] && !isLoading
    {
      messages := [];
      input := [];
      isLoading := false;
    }

    /** Typing in the input box, which is disabled while loading. */
    method OnInputChange(text: string)
      requires Valid()
      modifies this
      ensures Valid()
      ensures input == (if old(isLoading) then old(input) else text)
      ensures messages == old(messages) && isLoading == old(isLoading)
    {
      if !isLoading {
        input := text;
      }
    }

    /** The part of `handleSendMessage` before it waits for the assistant:
        blank input changes nothing, so neither does a send while one is
        pending, since its input was cleared; otherwise the input, untrimmed, is
        added as a user message, the input is cleared and loading starts.
        The result is the history handed to the assistant. */
    method HandleSendMessage() returns (history: Option<seq<ChatMessage>>)
      requires Valid()
      modifies this
      ensures Valid()
      ensures IsBlank(old(input)) ==> history.None? && unchanged(this)
      ensures old(isLoading) ==> history.None? && unchanged(this)
      ensures !IsBlank(old(input)) ==>
        && history == Some(old(messages) + [ChatMessage(User, old(input))])
        && messages == history.value
        && input == []
        && isLoading
    {
      if IsBlank(input) {
        return None;
      }
      var userMessage := ChatMessage(User, input);
      var newMessages := messages + [userMessage];
      messages := newMessages;
      input := [];
      isLoading := true;
      history := Some(newMessages);
    }

    /** The part of `handleSendMessage` after the assistant answers or
        fails: one assistant message with the answer or the apology, and
        loading ends. */
    method ReceiveReply(outcome: BotOutcome)
      requires Valid() && isLoading
      modifies this
      ensures Valid()
      ensures messages == old(messages) + [ChatMessage(Model, ReplyText(outcome))]
      ensures input == old(input) && !isLoading
    {
      messages := messages + [ChatMessage(Model, ReplyText(outcome))];
      isLoading := false;
    }

    /** A whole send, both parts: blank input changes nothing; otherwise the
        history grows by exactly the user message and the assistant's
        message, the earlier messages stay as they were, the input is
        cleared and loading is over. */
    method Send(outcome: BotOutcome)
      requires Valid()
      modifies this
      ensures Valid()
      ensures IsBlank(old(input)) ==> unchanged(this)
      ensures !IsBlank(old(input)) ==>
        && messages == old(messages) + [ChatMessage(User, old(input)), ChatMessage(Model, ReplyText(outcome))]
        && |messages| == |old(messages)| + 2
        && messages[..|old(messages)|] == old(messages)
        && input == []
        && !isLoading
    {
      var history := HandleSendMessage();
      if history.Some? {
        ReceiveReply(outcome);
      }
    }

    /** Enter in the input box, or the send button: nothing while loading,
        otherwise the first part of a send. */
    method Submit() returns (history: Option<seq<ChatMessage>>)
      requires Valid()
      modifies this
      ensures Valid()
      ensures old(isLoading) || IsBlank(old(input)) ==> history.None? && unchanged(this)
      ensures !old(isLoading) && !IsBlank(old(input)) ==>
        && history == Some(old(messages) + [ChatMessage(User, old(input))])
        && messages == history.value && input == [] && isLoading
    {
      history := None;
      if !isLoading {
        history := HandleSendMessage();
      }
    }
  }

  /** The history handed to the assistant always ends with the user's
      message, after complete exchanges. */
  lemma HistoryEndsWithUser(previous: seq<ChatMessage>, input: string)
    requires Alternates(previous) && |previous| % 2 == 0
    ensures var history := previous + [ChatMessage(User, input)];
      Alternates(history) && history[|history| - 1].role == User
  {
  }
}
