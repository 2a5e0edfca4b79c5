/**
 * The `ChatInput` component: one text field, a send handler that forwards
 * the trimmed text and empties the field, the Enter-key rule, and the
 * disabled conditions of the field and the send button.
 */
module ChatInputField {
  import opened Wrappers
  import opened Trimming

  /** The parts of a key event the handler looks at. */
  datatype KeyEvent = KeyEvent(key: string, shiftKey: bool)

  /** The guard of `handleSend`: a non-blank message, no request loading, and
      the component not disabled. */
  predicate CanSend(message: string, isLoading: bool, disabled: bool) {
    !IsBlank(message) && !isLoading && !disabled
  }

  /** What `handleSend` hands to `onSendMessage`: the trimmed message exactly
      when the guard passes, and that is never blank. */
  function Forwarded(message: string, isLoading: bool, disabled: bool): (f: Option<string>)
    ensures f.Some? <==> CanSend(message, isLoading, disabled)
    ensures f.Some? ==> f.value == Trim(message) && f.value != "" && !IsBlank(f.value)
  {
    if CanSend(message, isLoading, disabled) then
      TrimKeepsNonBlank(message);
      Some(Trim(message))
    else
      None
  }

  /** The send button's `disabled` expression: it is enabled exactly when the
      guard of `handleSend` would pass. */
  function SendButtonDisabled(message: string, isLoading: bool, disabled: bool): (d: bool)
    ensures d <==> !CanSend(message, isLoading, disabled)
  {
    Trim(message) == "" || isLoading || disabled
  }

  /** The text field's `disabled` expression: while it holds, no message at all
      would pass the guard, and when it does not, any non-blank one would. */
  function InputDisabled(isLoading: bool, disabled: bool): (d: bool)
    ensures d ==> forall m :: !CanSend(m, isLoading, disabled)
    ensures !d ==> forall m :: !IsBlank(m) ==> CanSend(m, isLoading, disabled)
  {
    isLoading || disabled
  }

  /** Enter without Shift sends; Shift+Enter and every other key do not. */
  predicate SendsOnKey(e: KeyEvent) {
    e.key == "Enter" && !e.shiftKey
  }

  /** The chat input forwards its text trimmed. */
  lemma ForwardedIsTrimmed()
    ensures Forwarded(" hi ", false, false) == Some("hi")
  {
    var s := " hi ";
    assert IsWhitespace(s[0]) && !IsWhitespace(s[1]) && !IsWhitespace(s[2]) && IsWhitespace(s[3]);
    assert TrimStart(s[1..]) == s[1..];
    assert TrimStart(s) == "hi ";
    assert TrimEnd("hi ") == TrimEnd("hi");
    assert TrimEnd("hi") == "hi";
  }

  class ChatInput {
    var message: string

    constructor()
      ensures message == ""
    {
      message := "";
    }

    /** The field's `onChange`: it takes the typed value. */
    method OnChange(value: string)
      modifies this
      ensures message == value
    {
      message := value;
    }

    /** `handleSend`: when the guard passes, forward the trimmed message and
        empty the field; otherwise forward nothing and keep the field. */
    method HandleSend(isLoading: bool, disabled: bool) returns (forwarded: Option<string>)
      modifies this
      ensures forwarded == Forwarded(old(message), isLoading, disabled)
      ensures message == if forwarded.Some? then "" else old(message)
    {
      if Trim(message) != "" && !isLoading && !disabled {
        forwarded := Some(Trim(message));
        message := "";
      } else {
        forwarded := None;
      }
    }

    /** `handleKeyPress`: Enter without Shift prevents the default action and
        runs `handleSend`; any other key does nothing. */
    method HandleKeyPress(e: KeyEvent, isLoading: bool, disabled: bool)
      returns (forwarded: Option<string>, defaultPrevented: bool)
      modifies this
      ensures defaultPrevented == SendsOnKey(e)
      ensures forwarded == if SendsOnKey(e) then Forwarded(old(message), isLoading, disabled) else None
      ensures message == if forwarded.Some? then "" else old(message)
    {
      forwarded, defaultPrevented := None, false;
      if e.key == "Enter" && !e.shiftKey {
        defaultPrevented := true;
        forwarded := HandleSend(isLoading, disabled);
      }
    }

    /** A click on the send button: a disabled button delivers no click, an
        enabled one runs `handleSend`. Either way it acts as `handleSend`. */
    method ClickSend(isLoading: bool, disabled: bool) returns (forwarded: Option<string>)
      modifies this
      ensures forwarded == Forwarded(old(message), isLoading, disabled)
      ensures message == if forwarded.Some? then "" else old(message)
    {
      if SendButtonDisabled(message, isLoading, disabled) {
        forwarded := None;
      } else {
        forwarded := HandleSend(isLoading, disabled);
      }
    }
  }
}
