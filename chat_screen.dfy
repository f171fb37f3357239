/** The safety-assistant chat of mobile/components/chat/ChatScreen.tsx: the
    message list, the input text and the loading flag, and `handleSend`, which
    appends the user's message, asks the assistant and appends its reply or a
    fixed fallback. The assistant is a parameter: its reply (or the error it
    threw) is given. Clock readings are parameters too. */
module ChatScreen {
  import opened Wrappers
  import opened Text

  datatype Sender = UserSender | SystemSender

  /** `timestamp` is a date in milliseconds since the epoch. */
  datatype Message = Message(id: string, text: string, sender: Sender, timestamp: int)

  datatype Role = UserRole | ModelRole

  /** One entry of the conversation history handed to the assistant. */
  datatype HistoryEntry = HistoryEntry(role: Role, text: string)

  /** What the assistant call produced: a reply (`None` for `null`/`undefined`),
      or a thrown error. */
  datatype ReplyOutcome = Replied(reply: Option<string>) | Threw

  const Greeting := "Hello! I'm your CitySafe safety assistant powered by Gemini AI. I can help you with safety information about locations in Jamaica, travel advice, or answer any questions about staying safe. How can I help you today?"
  const EmptyReplyApology := "Sorry, I couldn't generate a response for your message. Please try rephrasing your question."
  const ErrorApology := "Sorry, I encountered an error processing your message. Please try again."

  /** The conversation history: every message (all of them are from the user or
      the system), users as `user` and the system as `model`. */
  function HistoryOf(messages: seq<Message>): (h: seq<HistoryEntry>)
    ensures |h| == |messages|
    ensures forall i :: 0 <= i < |h| ==>
      h[i].text == messages[i].text && (h[i].role == UserRole <==> messages[i].sender == UserSender)
  {
    if messages == [] then []
    else [HistoryEntry(if messages[0].sender == UserSender then UserRole else ModelRole, messages[0].text)]
         + HistoryOf(messages[1..])
  }

  /** The history of a longer conversation extends the history of its start. */
  lemma {:induction false} HistoryOfAppend(a: seq<Message>, b: seq<Message>)
    ensures HistoryOf(a + b) == HistoryOf(a) + HistoryOf(b)
  {
    if a != [] {
      assert (a + b)[1..] == a[1..] + b;
      HistoryOfAppend(a[1..], b);
    }
  }

  /** The text of the message answering `outcome`: the reply itself when it has
      a non-blank character, an apology when it is missing or blank, and the
      error text when the call threw. */
  function ReplyText(outcome: ReplyOutcome): (t: string)
    ensures outcome.Threw? ==> t == ErrorApology
    ensures outcome.Replied? && outcome.reply.Some? && !IsBlank(outcome.reply.value) ==> t == outcome.reply.value
    ensures outcome.Replied? && (outcome.reply.None? || IsBlank(outcome.reply.value)) ==> t == EmptyReplyApology
  {
    match outcome
    case Threw => ErrorApology
    case Replied(reply) =>
      if !Truthy(reply) then EmptyReplyApology
      else
        TrimEmptyIffBlank(reply.value);
        if Trim(reply.value) == "" then EmptyReplyApology else reply.value
  }

  class Chat {
    var messages: seq<Message>
    var inputText: string
    var isLoading: bool

    /** The chat as it opens: one system greeting with id "1". */
    constructor (now: int)
      ensures messages == [Message("1", Greeting, SystemSender, now)]
      ensures inputText == "" && !isLoading
    {
      messages := [Message("1", Greeting, SystemSender, now)];
      inputText := "";
      isLoading := false;
    }

    /** Typing into the input box. */
    method SetInputText(text: string)
      modifies this
      ensures inputText == text && messages == old(messages) && isLoading == old(isLoading)
    {
      inputText := text;
    }

    /** The synchronous part of `handleSend`. A blank input or a pending request
        makes it a no-op. Otherwise it appends the user's message with the input
        as typed (not trimmed), clears the input and starts loading; it returns
        the prompt and the history of the messages before the new one. */
    method BeginSend(sentAt: int)
      returns (started: bool, prompt: string, history: seq<HistoryEntry>)
      modifies this
      ensures started <==> !IsBlank(old(inputText)) && !old(isLoading)
      ensures !started ==> messages == old(messages) && inputText == old(inputText) && isLoading == old(isLoading)
      ensures started ==>
        && messages == old(messages) + [Message(IntToString(sentAt), old(inputText), UserSender, sentAt)]
        && inputText == "" && isLoading
        && prompt == old(inputText) && history == HistoryOf(old(messages))
    {
      started, prompt, history := false, "", [];
      TrimEmptyIffBlank(inputText);
      if Trim(inputText) == "" {
        return;
      }
      if isLoading {
        return;
      }
      var userMessage := Message(IntToString(sentAt), inputText, UserSender, sentAt);
      prompt := inputText;
      history := HistoryOf(messages);
      messages := messages + [userMessage];
      inputText := "";
      isLoading := true;
      started := true;
    }

    /** The part of `handleSend` after the assistant answered or threw: one
        system message is appended and loading stops. */
    method CompleteSend(outcome: ReplyOutcome, repliedAt: int)
      requires isLoading
      modifies this
      ensures messages == old(messages) + [Message(IntToString(repliedAt + 1), ReplyText(outcome), SystemSender, repliedAt)]
      ensures inputText == old(inputText) && !isLoading
    {
      var text;
      match outcome {
        case Threw =>
          text := ErrorApology;
        case Replied(reply) =>
          if !Truthy(reply) || Trim(reply.value) == "" {
            text := EmptyReplyApology;
          } else {
            text := reply.value;
          }
      }
      messages := messages + [Message(IntToString(repliedAt + 1), text, SystemSender, repliedAt)];
      isLoading := false;
    }

    /** `handleSend` from start to finish, with nothing typed while waiting: a
        send that starts adds exactly two messages, the user's and the answer,
        and ends with loading off. */
    method HandleSend(sentAt: int, outcome: ReplyOutcome, repliedAt: int)
      returns (started: bool, prompt: string, history: seq<HistoryEntry>)
      modifies this
      ensures started <==> !IsBlank(old(inputText)) && !old(isLoading)
      ensures !started ==> messages == old(messages) && inputText == old(inputText) && isLoading == old(isLoading)
      ensures started ==>
        && |messages| == |old(messages)| + 2
        && messages[..|old(messages)|] == old(messages)
        && messages[|old(messages)|] == Message(IntToString(sentAt), old(inputText), UserSender, sentAt)
        && messages[|old(messages)| + 1].text == ReplyText(outcome)
        && messages[|old(messages)| + 1].sender == SystemSender
        && inputText == "" && !isLoading
        && prompt == old(inputText) && history == HistoryOf(old(messages))
    {
      started, prompt, history := BeginSend(sentAt);
      if started {
        CompleteSend(outcome, repliedAt);
      }
    }
  }
}
