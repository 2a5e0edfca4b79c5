/**
 * The chat panel wiring: the input is disabled while a request is loading or
 * an error is shown, the Clear button runs `clearChat`, and the input's
 * forwarded text goes to `sendMessage`. Together these keep at most one
 * request in flight and block sending while an error is set.
 */
module ChatPanelView {
  import opened Wrappers
  import opened Trimming
  import opened ChatHook
  import opened ChatInputField

  /** `!!error`: whether the error slot holds a truthy (non-empty) string. */
  function ErrorShown(error: Option<string>): bool {
    error.Some? && error.value != ""
  }

  /** No message can be sent from this state. */
  predicate SendBlocked(st: ChatState) {
    InputDisabled(st.isLoading, ErrorShown(st.error))
  }

  /** The Clear button as the panel has it: enabled exactly when the
      transcript is non-empty. */
  predicate ClearEnabledAsWritten(st: ChatState) {
    |st.messages| != 0
  }

  /** The Clear button as intended: also enabled while an error is shown, so
      that clearing, the one way out of an error, is always available. */
  predicate ClearEnabled(st: ChatState) {
    |st.messages| != 0 || ErrorShown(st.error)
  }

  /** With the Clear button as written, the panel can be stranded: send "hi",
      press Clear while it is in flight, and let the request fail. Nothing is
      loading, the error disables the input, and the empty transcript disables
      Clear. */
  lemma StrandedAsWritten()
    ensures var st := Settled(Cleared(Dispatched(Initial, "hi")), Request(Initial, "hi"), Thrown);
      && !st.isLoading && SendBlocked(st) && !ClearEnabledAsWritten(st)
      && ClearEnabledAsWritten(Dispatched(Initial, "hi"))
  {
    assert !IsWhitespace("hi"[0]);
  }

  /** With the corrected Clear button, a settled panel whose input is blocked
      can always be cleared, and clearing lets any non-blank message through. */
  lemma ClearAlwaysRecovers(st: ChatState, m: string)
    requires !st.isLoading && SendBlocked(st) && !IsBlank(m)
    ensures ClearEnabled(st)
    ensures var cleared := Cleared(st); !SendBlocked(cleared) && CanSend(m, cleared.isLoading, ErrorShown(cleared.error))
  {
  }

  class ChatPanel {
    const chat: ChatController
    const input: ChatInput
    /** The transcript carried by the request in flight, if one is. */
    var pending: Option<seq<ChatMessage>>

    /** A request is in flight exactly while loading, and a recorded error is
        never empty, so it is always shown. */
    predicate Valid()
      reads this, chat
    {
      && (chat.isLoading <==> pending.Some?)
      && (chat.error.Some? ==> chat.error.value != "")
    }

    constructor()
      ensures Valid() && fresh(chat) && fresh(input)
      ensures chat.State() == Initial && input.message == "" && pending.None?
    {
      chat := new ChatController();
      input := new ChatInput();
      pending := None;
    }

    /** Typing: a disabled field does not take input. */
    method Type(value: string)
      requires Valid()
      modifies input
      ensures input.message == if SendBlocked(chat.State()) then old(input.message) else value
    {
      if !InputDisabled(chat.isLoading, ErrorShown(chat.error)) {
        input.OnChange(value);
      }
    }

    /** Hands a forwarded text to `sendMessage`, which dispatches it. */
    method Deliver(forwarded: Option<string>) returns (request: Option<seq<ChatMessage>>)
      requires Valid() && (forwarded.Some? ==> !chat.isLoading)
      requires forwarded.Some? ==> !IsBlank(forwarded.value)
      modifies this, chat
      ensures Valid()
      ensures request.Some? <==> forwarded.Some?
      ensures forwarded.None? ==> chat.State() == old(chat.State()) && pending == old(pending)
      ensures forwarded.Some? ==>
        && request == Some(old(chat.messages) + [ChatMessage(User, forwarded.value)])
        && pending == request && chat.State() == Dispatched(old(chat.State()), forwarded.value)
    {
      request := None;
      if forwarded.Some? {
        request := chat.Dispatch(forwarded.value);
        pending := request;
      }
    }

    /** A key press in the field. While a request is in flight or an error is
        set nothing is sent; otherwise Enter without Shift sends the trimmed
        text when it is not blank. */
    method PressKey(e: KeyEvent) returns (request: Option<seq<ChatMessage>>)
      requires Valid()
      modifies this, chat, input
      ensures Valid()
      ensures old(pending).Some? || old(chat.error).Some? ==>
        request.None? && chat.State() == old(chat.State()) && pending == old(pending)
      ensures request.Some? <==>
        SendsOnKey(e) && CanSend(old(input.message), old(chat.isLoading), ErrorShown(old(chat.error)))
      ensures request.Some? ==>
        request.value == old(chat.messages) + [ChatMessage(User, Trim(old(input.message)))]
      ensures pending == if request.Some? then request else old(pending)
      ensures chat.State() ==
        if request.Some? then Dispatched(old(chat.State()), Trim(old(input.message))) else old(chat.State())
      ensures input.message == if request.Some? then "" else old(input.message)
    {
      var forwarded, _ := input.HandleKeyPress(e, chat.isLoading, ErrorShown(chat.error));
      request := Deliver(forwarded);
    }

    /** A click on the send button, with the same guarantees as Enter. */
    method ClickSend() returns (request: Option<seq<ChatMessage>>)
      requires Valid()
      modifies this, chat, input
      ensures Valid()
      ensures old(pending).Some? || old(chat.error).Some? ==>
        request.None? && chat.State() == old(chat.State()) && pending == old(pending)
      ensures request.Some? <==> CanSend(old(input.message), old(chat.isLoading), ErrorShown(old(chat.error)))
      ensures request.Some? ==>
        request.value == old(chat.messages) + [ChatMessage(User, Trim(old(input.message)))]
      ensures pending == if request.Some? then request else old(pending)
      ensures chat.State() ==
        if request.Some? then Dispatched(old(chat.State()), Trim(old(input.message))) else old(chat.State())
      ensures input.message == if request.Some? then "" else old(input.message)
    {
      var forwarded := input.ClickSend(chat.isLoading, ErrorShown(chat.error));
      request := Deliver(forwarded);
    }

    /** The request in flight settles. */
    method Respond(outcome: Outcome)
      requires Valid() && pending.Some?
      modifies this, chat
      ensures Valid() && pending.None?
      ensures chat.State() == Settled(old(chat.State()), old(pending.value), outcome)
    {
      chat.Settle(pending.value, outcome);
      pending := None;
    }

    /** A click on Clear, with the button enabled as `ClearEnabled` says. */
    method ClickClear()
      requires Valid()
      modifies chat
      ensures Valid()
      ensures chat.State() == if ClearEnabled(old(chat.State())) then Cleared(old(chat.State())) else old(chat.State())
    {
      if |chat.messages| != 0 || ErrorShown(chat.error) {
        chat.ClearChat();
      }
    }

    /** A click on Clear with the button enabled as the panel has it. */
    method ClickClearAsWritten()
      requires Valid()
      modifies chat
      ensures Valid()
      ensures chat.State() ==
        if ClearEnabledAsWritten(old(chat.State())) then Cleared(old(chat.State())) else old(chat.State())
    {
      if |chat.messages| != 0 {
        chat.ClearChat();
      }
    }
  }

  /** The stranded state of `StrandedAsWritten`, reached through the panel's
      own events: type "hi", press Enter, click Clear (as written) while the
      request is in flight, and let the request throw. */
  method StrandPanelAsWritten() returns (p: ChatPanel)
    ensures p.Valid() && p.pending.None? && !p.chat.isLoading
    ensures SendBlocked(p.chat.State()) && !ClearEnabledAsWritten(p.chat.State())
  {
    p := new ChatPanel();
    p.Type("hi");
    assert !IsWhitespace("hi"[0]);
    var request := p.PressKey(KeyEvent("Enter", false));
    p.ClickClearAsWritten();
    p.Respond(Thrown);
  }
}
