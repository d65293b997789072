/**
  The chat input form: a text field whose content is sent, trimmed, when
  the form is submitted, and the send button that is enabled only when a
  submit would send.
 */
module ChatInputForm {
  import opened Values
  import opened Text

  /** What a submit hands to `onSendMessage`: the trimmed text when it is not empty and the input is enabled. */
  function Submission(message: string, disabled: bool): Option<string> {
    var trimmedMessage := Trim(message);
    if trimmedMessage != "" && !disabled then Some(trimmedMessage) else None
  }

  /** `disabled || !message.trim()` turned around. */
  predicate SendEnabled(message: string, disabled: bool) {
    !disabled && Trim(message) != ""
  }

  /**
    A submit sends exactly when the button is enabled, and what it sends is
    the text without its surrounding whitespace and never blank.
   */
  lemma SubmitSendsIffEnabled(message: string, disabled: bool)
    ensures Submission(message, disabled).Some? <==> SendEnabled(message, disabled)
    ensures Submission(message, disabled).Some? ==>
              var sent := Submission(message, disabled).value;
              && sent == Trim(message)
              && sent != "" && !IsSpace(sent[0]) && !IsSpace(sent[|sent| - 1])
              && !AllSpace(message)
  {
    TrimEmptyIffAllSpace(message);
  }

  /** Sending what a submit sent, the same way, sends the same text again: trimming is idempotent. */
  lemma ResubmitSendsSame(message: string, disabled: bool)
    requires Submission(message, disabled).Some?
    ensures Submission(Submission(message, disabled).value, disabled) == Submission(message, disabled)
  {
    TrimIdempotent(message);
  }

  /** A whitespace-only field never sends. */
  lemma BlankNeverSends(message: string, disabled: bool)
    requires AllSpace(message)
    ensures Submission(message, disabled).None?
  {
    TrimEmptyIffAllSpace(message);
  }

  class ChatInput {
    var message: string

    constructor ()
      ensures message == ""
    {
      message := "";
    }

    /** `onChange`: the field holds what was typed. */
    method OnChange(value: string)
      modifies this
      ensures message == value
    {
      message := value;
    }

    /** `handleSubmit`: send the trimmed text if there is any and the input is enabled; only then clear the field. */
    method HandleSubmit(disabled: bool) returns (sent: Option<string>)
      modifies this
      ensures sent == Submission(old(message), disabled)
      ensures sent.Some? <==> SendEnabled(old(message), disabled)
      ensures message == if sent.Some? then "" else old(message)
    {
      var trimmedMessage := Trim(message);
      if trimmedMessage != "" && !disabled {
        sent := Some(trimmedMessage);
        message := "";
      } else {
        sent := None;
      }
    }

    /**
      `handleKeyDown`: Enter without Shift suppresses the newline and
      submits; any other key, Shift+Enter included, leaves the field alone.
     */
    method HandleKeyDown(key: string, shiftKey: bool, disabled: bool) returns (sent: Option<string>, newlineSuppressed: bool)
      modifies this
      ensures newlineSuppressed <==> key == "Enter" && !shiftKey
      ensures newlineSuppressed ==> sent == Submission(old(message), disabled)
                                    && message == if sent.Some? then "" else old(message)
      ensures !newlineSuppressed ==> sent.None? && message == old(message)
    {
      if key == "Enter" && !shiftKey {
        newlineSuppressed := true;
        sent := HandleSubmit(disabled);
      } else {
        newlineSuppressed := false;
        sent := None;
      }
    }

    /** The send button's enabled state. */
    predicate ButtonEnabled(disabled: bool)
      reads this
      ensures ButtonEnabled(disabled) <==> Submission(message, disabled).Some?
      ensures ButtonEnabled(disabled) ==> !disabled && !AllSpace(message)
    {
      SubmitSendsIffEnabled(message, disabled);
      SendEnabled(message, disabled)
    }
  }
}
