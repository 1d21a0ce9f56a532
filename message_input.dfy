/**
 * The input box's decisions: when a submit reaches `onSend`, what a key press
 * does, and which controls are disabled. The component holds no state; each
 * decision is a function of the current text and the busy flag.
 */
module MessageInput {
  import opened Wrappers
  import opened Text

  /** `value.trim() && !isLoading`. */
  predicate CanSubmit(value: string, isLoading: bool) {
    Strip(value) != "" && !isLoading
  }

  /** `submitMessage`: the argument `onSend` receives, or None when it is not called. */
  function SubmitMessage(value: string, isLoading: bool): (sent: Option<string>)
    ensures sent.Some? <==> !IsBlank(value) && !isLoading
    ensures sent.Some? ==> sent.value == value
  {
    if CanSubmit(value, isLoading) then Some(value) else None
  }

  /** A key press in the textarea. */
  datatype KeyEvent = KeyEvent(key: string, metaKey: bool, isComposing: bool)

  /** What `handleKeyDown` does: nothing, or `preventDefault` then `submitMessage`. */
  datatype KeyAction = Ignore | Submit(sent: Option<string>)

  function HandleKeyDown(e: KeyEvent, value: string, isLoading: bool): (a: KeyAction)
    ensures e.isComposing ==> a == Ignore
    ensures !e.isComposing && e.key == "Enter" && e.metaKey ==> a == Submit(SubmitMessage(value, isLoading))
    ensures a.Submit? ==> e.key == "Enter" && e.metaKey && !e.isComposing
  {
    if e.isComposing then Ignore
    else if e.key == "Enter" && e.metaKey then Submit(SubmitMessage(value, isLoading))
    else Ignore
  }

  /** `disabled={!value.trim() || isLoading}` on the send button. */
  function SendButtonDisabled(value: string, isLoading: bool): (disabled: bool)
    ensures disabled <==> IsBlank(value) || isLoading
  {
    Strip(value) == "" || isLoading
  }

  /** The textarea and the model selector are both `disabled={isLoading}`. */
  function ControlsDisabled(isLoading: bool): bool {
    isLoading
  }

  /** The send button is enabled exactly when a click would call `onSend`. */
  lemma ButtonMatchesSubmitGuard(value: string, isLoading: bool)
    ensures !SendButtonDisabled(value, isLoading) <==> SubmitMessage(value, isLoading).Some?
  {
  }

  /** Plain Enter, or Enter while composing with an input method, never sends. */
  lemma PlainEnterDoesNotSend(value: string, isLoading: bool, isComposing: bool)
    ensures HandleKeyDown(KeyEvent("Enter", false, isComposing), value, isLoading) == Ignore
    ensures HandleKeyDown(KeyEvent("Enter", true, true), value, isLoading) == Ignore
  {
  }
}
