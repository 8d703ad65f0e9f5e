/** The chat input component: the trim/guard/clear submit handler and the quick-action buttons. */
module ChatBox {
  import opened Common
  import opened Text

  /** The quick-action buttons, in order, as (label, kind passed to `onQuick`). */
  const QuickButtons: seq<(string, string)> := [
    ("Generate 100 MCQs", "mcq"),
    ("Create summary", "summary"),
    ("Make study plan", "plan")
  ]

  class ChatInput {
    var input: string

    constructor ()
      ensures input == ""
    {
      input := "";
    }

    /** `handleInput`: the textarea's value becomes the input. */
    method HandleInput(value: string)
      modifies this`input
      ensures input == value
    {
      input := value;
    }

    /** The send button is disabled exactly when the input is whitespace only. */
    function SubmitDisabled(): (d: bool)
      reads this
      ensures d <==> AllWhitespace(input)
    {
      TrimBlankIff(input);
      Trim(input) == ""
    }

    /** `handleSubmit`: whitespace-only input sends nothing and stays; otherwise `onSend` gets
        the trimmed text, which is never blank, and the input is cleared. */
    method HandleSubmit() returns (sentToOnSend: Option<string>)
      modifies this`input
      ensures AllWhitespace(old(input)) ==> sentToOnSend == None && input == old(input)
      ensures !AllWhitespace(old(input)) ==> (sentToOnSend == Some(Trim(old(input))) && input == ""
        && !AllWhitespace(sentToOnSend.value) && Trim(sentToOnSend.value) == sentToOnSend.value)
    {
      TrimBlankIff(input);
      var trimmed := Trim(input);
      if trimmed == "" {
        sentToOnSend := None;
      } else {
        TrimIdempotent(input);
        TrimBlankIff(trimmed);
        sentToOnSend := Some(trimmed);
        input := "";
      }
    }
  }
}
