/** The chat box: its only state is the text in the input field. Sending is
    guarded by a non-blank test, and the send button is disabled under the
    same test. With an empty transcript, four suggestion buttons send their
    fixed text directly. */
module ChatComponent {
  import opened Wrappers
  import opened Strings
  import opened Types

  const Suggestions: seq<string> := [
    "Summarize this document",
    "Extract contact information",
    "Find all dates in this document",
    "What is this document about?"
  ]

  /** The `disabled` condition of the send button, `!input.trim()`: it holds
      exactly when the input is white space only. */
  function SendDisabled(input: string): (r: bool)
    ensures r <==> AllSpace(input)
  {
    TrimEmptyIffBlank(input);
    Trim(input) == []
  }

  /** The suggestion buttons are rendered only while the transcript is empty. */
  predicate SuggestionsShown(messages: seq<ChatMessage>)
  {
    messages == []
  }

  class Chat {
    var input: string

    constructor ()
      ensures input == ""
    {
      input := "";
    }

    /** The input field's `onChange`. */
    method ChangeInput(value: string)
      modifies this`input
      ensures input == value
    {
      input := value;
    }

    /** `handleSubmit`: if the trimmed input is non-empty the raw, untrimmed
        input is sent and the field is cleared; otherwise nothing is sent and
        the input stays. A send happens exactly when the button is enabled. */
    method HandleSubmit() returns (sent: Option<string>)
      modifies this`input
      ensures sent.Some? <==> !SendDisabled(old(input))
      ensures sent.Some? ==> sent.value == old(input) && input == ""
      ensures sent.None? ==> input == old(input)
    {
      if Trim(input) != [] {
        sent := Some(input);
        input := "";
      } else {
        sent := None;
      }
    }

    /** A suggestion button sends its fixed text as it is, without looking at
        or changing the input field. */
    method ClickSuggestion(i: nat, messages: seq<ChatMessage>) returns (sent: string)
      requires SuggestionsShown(messages) && i < |Suggestions|
      ensures sent == Suggestions[i]
      ensures !SendDisabled(sent)
    {
      sent := Suggestions[i];
      assert sent[0] != ' ' && sent[0] != '\t' && sent[0] != '\n' && sent[0] != '\r';
    }
  }
}
