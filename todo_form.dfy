/**
 * The `TodoForm` component: one text field and a submit handler that hands
 * the text, untrimmed, to `onAddTodo` and then empties the field.
 */
module TodoFormField {
  import opened Wrappers
  import opened Trimming

  /** What a submission hands to `onAddTodo`: nothing when the field is blank,
      otherwise the field's contents exactly as typed (not trimmed). */
  function Submitted(text: string): (added: Option<string>)
    ensures added.Some? <==> !IsBlank(text)
    ensures added.Some? ==> added.value == text && Trim(text) != ""
  {
    if Trim(text) == "" then None else Some(text)
  }

  /** The todo form hands its text on untrimmed. */
  lemma SubmittedIsUntrimmed()
    ensures Submitted(" hi ") == Some(" hi ")
  {
    assert !IsWhitespace(" hi "[1]);
  }

  class TodoForm {
    var text: string

    constructor()
      ensures text == ""
    {
      text := "";
    }

    /** The input's `onChange`: the field takes the typed value. */
    method OnChange(value: string)
      modifies this
      ensures text == value
    {
      text := value;
    }

    /** `handleSubmit`: a blank field is left as it is and nothing is added;
        otherwise the text is handed on once and the field is emptied. */
    method HandleSubmit() returns (added: Option<string>)
      modifies this
      ensures added == Submitted(old(text))
      ensures text == if added.Some? then "" else old(text)
    {
      if Trim(text) == "" {
        return None;
      }
      added := Some(text);
      text := "";
    }
  }
}
