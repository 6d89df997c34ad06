/**
 * The message input (src/components/ChatInput.jsx): one `value` field, a
 * submit guard that refuses blank text, the Enter / Shift+Enter dispatch,
 * and the textarea's height cap. `onSend` is the submit method's output:
 * `Some(text)` is the one call made with `text`, `None` means no call.
 * A disabled textarea or button delivers no events, which is what
 * `disabled` models on the event methods.
 */
module ChatInput {
  import opened Wrappers
  import opened JsString

  /** Tallest the textarea grows, in pixels. */
  const MaxHeight: nat := 220

  /** What `handleSubmit` passes to `onSend` for a given value: nothing for blank text, else the trimmed text. */
  function SubmittedText(value: string): (r: Option<string>)
    ensures r.None? <==> AllSpace(value)
    ensures r.Some? ==> r.value != [] && Trimmed(r.value) && |r.value| <= |value|
    ensures r.Some? ==> r.value == Trim(value)
  {
    TrimEmptyIffAllSpace(value);
    var t := Trim(value);
    if t == [] then None else Some(t)
  }

  /** Re-trimming the text that was sent changes nothing: it would be sent as is. */
  lemma SubmittedTextIsStable(value: string)
    requires SubmittedText(value).Some?
    ensures SubmittedText(SubmittedText(value).value) == SubmittedText(value)
  {
  }

  /** The key dispatch: only Enter without Shift submits (and suppresses the newline). */
  predicate SubmitsOnKey(key: string, shift: bool): (b: bool)
    ensures b ==> key == "Enter"
    ensures key == "Enter" ==> (b <==> !shift)
  {
    key == "Enter" && !shift
  }

  /** `min(scrollHeight, 220)`: the textarea's height for its content's scroll height. */
  function TextareaHeight(scrollHeight: nat): (h: nat)
    ensures h <= MaxHeight && h <= scrollHeight
    ensures h == scrollHeight || h == MaxHeight
  {
    if scrollHeight < MaxHeight then scrollHeight else MaxHeight
  }

  class Input {
    var value: string

    constructor()
      ensures value == ""
    {
      value := "";
    }

    /** `onChange`: the value becomes the textarea's text. */
    method Change(newValue: string)
      modifies this
      ensures value == newValue
    {
      value := newValue;
    }

    /**
     * `handleSubmit`: blank text (empty after trimming) sends nothing and
     * keeps the value; otherwise the trimmed text is sent once and the
     * value is cleared.
     */
    method Submit() returns (sent: Option<string>)
      modifies this
      ensures sent == SubmittedText(old(value))
      ensures Trim(old(value)) == [] ==> sent.None? && value == old(value)
      ensures Trim(old(value)) != [] ==> sent == Some(Trim(old(value))) && value == ""
    {
      var trimmed := Trim(value);
      if trimmed == [] {
        return None;
      }
      sent := Some(trimmed);
      value := "";
    }

    /**
     * `onKeyDown`: Enter without Shift suppresses the newline and submits;
     * any other key, Shift+Enter included, does nothing here.
     */
    method KeyDown(key: string, shift: bool, disabled: bool) returns (newlineSuppressed: bool, sent: Option<string>)
      modifies this
      ensures disabled || !SubmitsOnKey(key, shift) ==> !newlineSuppressed && sent.None? && value == old(value)
      ensures !disabled && SubmitsOnKey(key, shift) ==>
                newlineSuppressed && sent == SubmittedText(old(value))
                && value == (if sent.Some? then "" else old(value))
    {
      newlineSuppressed := false;
      sent := None;
      if disabled {
        return;
      }
      if key == "Enter" && !shift {
        newlineSuppressed := true;
        sent := Submit();
      }
    }

    /** The Send button's `onClick`. */
    method Click(disabled: bool) returns (sent: Option<string>)
      modifies this
      ensures disabled ==> sent.None? && value == old(value)
      ensures !disabled ==> sent == SubmittedText(old(value)) && value == (if sent.Some? then "" else old(value))
    {
      if disabled {
        return None;
      }
      sent := Submit();
    }
  }
}
