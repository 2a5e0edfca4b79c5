/**
 * The conversation controller of the `useChat` hook: a transcript, a loading
 * flag and an error slot. `sendMessage` appends the user's turn, marks the
 * request in flight, posts the whole transcript, and settles in one of four
 * ways; `clearChat` empties the transcript and the error.
 *
 * The network call is an input: `Outcome` says how the request settled.
 */
module ChatHook {
  import opened Wrappers
  import opened Trimming

  datatype Role = User | Assistant

  datatype ChatMessage = ChatMessage(role: Role, content: string)

  /** How the request settled: a non-ok response, with the `error` field of
      its body when that is a string; an ok response, with
      `choices[0].message` when present; or an exception thrown by `fetch` or
      by parsing the body. */
  datatype Outcome = NotOk(errField: Option<string>) | Ok(msg: Option<ChatMessage>) | Thrown

  datatype ChatState = ChatState(messages: seq<ChatMessage>, isLoading: bool, error: Option<string>)

  const Initial := ChatState([], false, None)

  const ChatApiError := "Error from chat API"
  const InvalidFormatError := "Invalid response format from AI service"
  const NetworkError := "Network error - please check your connection"

  /** The transcript the outbound request carries: the transcript so far and
      the user's turn, with the text as typed. */
  function Request(st: ChatState, userMessage: string): seq<ChatMessage> {
    st.messages + [ChatMessage(User, userMessage)]
  }

  /** The assistant turn a settled request appends, if any: the message of an
      ok response, whatever its role. */
  function Reply(outcome: Outcome): (m: Option<ChatMessage>)
    ensures m.Some? <==> outcome.Ok? && outcome.msg.Some?
    ensures m.Some? ==> m == outcome.msg
  {
    match outcome
    case Ok(msg) => msg
    case _ => None
  }

  /** The error a settled request records, if any. A non-ok response reports
      its body's `error` field when that is truthy and a fixed message
      otherwise, so the recorded error is never the empty string. Exactly the
      outcomes without a reply record an error. */
  function Failure(outcome: Outcome): (e: Option<string>)
    ensures e.None? <==> Reply(outcome).Some?
    ensures e.Some? ==> e.value != ""
    ensures outcome == Thrown ==> e == Some(NetworkError)
    ensures outcome == Ok(None) ==> e == Some(InvalidFormatError)
    ensures outcome.NotOk? && outcome.errField.Some? && outcome.errField.value != "" ==> e == outcome.errField
    ensures outcome.NotOk? && (outcome.errField.None? || outcome.errField.value == "") ==> e == Some(ChatApiError)
  {
    match outcome
    case NotOk(field) => Some(if field.Some? && field.value != "" then field.value else ChatApiError)
    case Ok(None) => Some(InvalidFormatError)
    case Ok(Some(_)) => None
    case Thrown => Some(NetworkError)
  }

  /** The state once `sendMessage` has reached its `fetch`. */
  function Dispatched(st: ChatState, userMessage: string): (r: ChatState)
    ensures IsBlank(userMessage) ==> r == st
    ensures !IsBlank(userMessage) ==>
      && r.messages == st.messages + [ChatMessage(User, userMessage)]
      && r.isLoading && r.error.None?
  {
    if IsBlank(userMessage) then st else ChatState(Request(st, userMessage), true, None)
  }

  /** The state once the request that carried `request` has settled. A reply
      sets the transcript to `request` plus the reply (the transcript as it
      was dispatched, whatever happened since); a failure leaves the
      transcript alone and records the error; loading always ends. */
  function Settled(st: ChatState, request: seq<ChatMessage>, outcome: Outcome): (r: ChatState)
    ensures !r.isLoading
    ensures Reply(outcome).Some? ==> r.messages == request + [Reply(outcome).value] && r.error == st.error
    ensures Reply(outcome).None? ==> r.messages == st.messages && r.error == Failure(outcome)
  {
    ChatState(
      if Reply(outcome).Some? then request + [Reply(outcome).value] else st.messages,
      false,
      if Failure(outcome).Some? then Failure(outcome) else st.error)
  }

  /** `sendMessage` run to settlement with nothing in between. A blank message
      changes nothing. Otherwise loading has ended, the transcript is the old
      one followed by the user's turn and at most one more turn, and there is
      a second turn exactly when no error is recorded. */
  function Sent(st: ChatState, userMessage: string, outcome: Outcome): (r: ChatState)
    ensures IsBlank(userMessage) ==> r == st
    ensures !IsBlank(userMessage) ==> !r.isLoading && r.error == Failure(outcome)
    ensures !IsBlank(userMessage) ==>
      && |st.messages| + 1 <= |r.messages| <= |st.messages| + 2
      && r.messages[..|st.messages| + 1] == st.messages + [ChatMessage(User, userMessage)]
      && (|r.messages| == |st.messages| + 2 <==> r.error.None?)
  {
    if IsBlank(userMessage) then st
    else Settled(Dispatched(st, userMessage), Request(st, userMessage), outcome)
  }

  /** `clearChat`: no transcript and no error; the loading flag is untouched. */
  function Cleared(st: ChatState): (r: ChatState)
    ensures r.messages == [] && r.error.None? && r.isLoading == st.isLoading
  {
    st.(messages := [], error := None)
  }

  /** An ok response with a message appends it verbatim after the user's turn
      and leaves no error. */
  lemma SentReply(st: ChatState, userMessage: string, m: ChatMessage)
    requires !IsBlank(userMessage)
    ensures Sent(st, userMessage, Ok(Some(m))) ==
      ChatState(st.messages + [ChatMessage(User, userMessage), m], false, None)
  {
  }

  /** An ok response without `choices[0].message` keeps only the user's turn
      and reports an invalid format. */
  lemma SentMalformed(st: ChatState, userMessage: string)
    requires !IsBlank(userMessage)
    ensures Sent(st, userMessage, Ok(None)) ==
      ChatState(st.messages + [ChatMessage(User, userMessage)], false, Some(InvalidFormatError))
  {
  }

  /** A non-ok response appends no assistant turn and reports the body's
      `error` field, or the fixed API error when that field is falsy. */
  lemma SentNotOk(st: ChatState, userMessage: string, errField: Option<string>)
    requires !IsBlank(userMessage)
    ensures Sent(st, userMessage, NotOk(errField)) ==
      ChatState(st.messages + [ChatMessage(User, userMessage)], false,
        Some(if errField.Some? && errField.value != "" then errField.value else ChatApiError))
  {
  }

  /** An exception keeps the user's turn and reports a network error. */
  lemma SentThrown(st: ChatState, userMessage: string)
    requires !IsBlank(userMessage)
    ensures Sent(st, userMessage, Thrown) ==
      ChatState(st.messages + [ChatMessage(User, userMessage)], false, Some(NetworkError))
  {
  }

  /** Clearing while a request is in flight is undone by a reply: the reply
      puts back the transcript the request carried. */
  lemma ClearDuringFlightUndoneByReply(st: ChatState, userMessage: string, m: ChatMessage)
    requires !IsBlank(userMessage)
    ensures Settled(Cleared(Dispatched(st, userMessage)), Request(st, userMessage), Ok(Some(m))).messages ==
      st.messages + [ChatMessage(User, userMessage), m]
  {
  }

  /** Clearing while a request is in flight and then failing leaves an empty
      transcript with an error recorded. */
  lemma ClearDuringFlightThenFailure(st: ChatState, userMessage: string, outcome: Outcome)
    requires !IsBlank(userMessage) && Reply(outcome).None?
    ensures var r := Settled(Cleared(Dispatched(st, userMessage)), Request(st, userMessage), outcome);
      r.messages == [] && r.error.Some? && r.error.value != "" && !r.isLoading
  {
  }

  /** The hook's three state slots. */
  class ChatController {
    var messages: seq<ChatMessage>
    var isLoading: bool
    var error: Option<string>

    function State(): ChatState
      reads this
    {
      ChatState(messages, isLoading, error)
    }

    constructor()
      ensures State() == Initial
    {
      messages := [];
      isLoading := false;
      error := None;
    }

    /** `sendMessage` up to its `fetch`: a blank message returns at once;
        otherwise the user's turn is appended, loading starts, the error is
        cleared, and the request carries the updated transcript. */
    method Dispatch(userMessage: string) returns (request: Option<seq<ChatMessage>>)
      modifies this
      ensures State() == Dispatched(old(State()), userMessage)
      ensures IsBlank(userMessage) ==> request.None? && State() == old(State())
      ensures !IsBlank(userMessage) ==>
        && request == Some(old(messages) + [ChatMessage(User, userMessage)])
        && messages == request.value && isLoading && error.None?
    {
      if Trim(userMessage) == "" {
        return None;
      }
      var newMessage := ChatMessage(User, userMessage);
      var updatedMessages := messages + [newMessage];
      messages := updatedMessages;
      isLoading := true;
      error := None;
      request := Some(updatedMessages);
    }

    /** `sendMessage` after its `fetch` settles; `request` is the transcript
        the request carried. */
    method Settle(request: seq<ChatMessage>, outcome: Outcome)
      modifies this
      ensures State() == Settled(old(State()), request, outcome)
      ensures !isLoading
      ensures Reply(outcome).None? ==> messages == old(messages) && error == Failure(outcome)
    {
      match outcome {
        case NotOk(errField) =>
          error := Some(if errField.Some? && errField.value != "" then errField.value else ChatApiError);
        case Ok(Some(aiMessage)) =>
          messages := request + [aiMessage];
        case Ok(None) =>
          error := Some(InvalidFormatError);
        case Thrown =>
          error := Some(NetworkError);
      }
      isLoading := false;
    }

    /** `sendMessage` from call to settlement. */
    method SendMessage(userMessage: string, outcome: Outcome)
      modifies this
      ensures State() == Sent(old(State()), userMessage, outcome)
    {
      var request := Dispatch(userMessage);
      if request.Some? {
        Settle(request.value, outcome);
      }
    }

    method ClearChat()
      modifies this
      ensures State() == Cleared(old(State()))
    {
      messages := [];
      error := None;
    }
  }
}
