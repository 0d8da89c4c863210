// The chat input: which callback a submitted message reaches and when the
// textarea and the submit button are disabled. The component wires its
// handler into the prompt input, whose submit paths are in PromptInput.
module ChatInput {
  import opened Wrappers
  import Text
  import PromptInput

  type Message = PromptInput.Message

  /** The callback a submission reaches. */
  datatype Call = OnSubmit(msg: Message) | OnSend(text: string)

  /** What handleSubmit does: the callback it calls, if any, and whether it
    * resets the local text to "". */
  datatype Outcome = Outcome(call: Option<Call>, resetsText: bool)

  /** Nothing to send: the text is blank after trimming and no file is attached. */
  predicate Empty(msg: Message)
  {
    (msg.text.None? || Text.Trim(msg.text.value) == "") && (msg.files.None? || msg.files.value == [])
  }

  /** handleSubmit: an empty message does nothing; otherwise onSubmit, when
    * given, takes the message, else onSend takes a truthy text; the text is
    * reset either way. */
  function HandleSubmit(msg: Message, hasOnSubmit: bool, hasOnSend: bool): (r: Outcome)
    ensures Empty(msg) ==> r == Outcome(None, false)
    ensures !Empty(msg) ==> r.resetsText
    ensures r.call.Some? && r.call.value.OnSubmit? <==> !Empty(msg) && hasOnSubmit
    ensures r.call.Some? && r.call.value.OnSend? <==>
              !Empty(msg) && !hasOnSubmit && hasOnSend && msg.text.Some? && msg.text.value != ""
    ensures r.call.Some? && r.call.value.OnSubmit? ==> r.call.value.msg == msg
    ensures r.call.Some? && r.call.value.OnSend? ==> r.call.value.text == msg.text.value
  {
    if Empty(msg) then Outcome(None, false)
    else if hasOnSubmit then Outcome(Some(OnSubmit(msg)), true)
    else if hasOnSend && msg.text.Some? && msg.text.value != "" then Outcome(Some(OnSend(msg.text.value)), true)
    else Outcome(None, true)
  }

  /** A message with attachments only and no onSubmit reaches nobody, yet the
    * text is still reset; onSend receives whitespace as it is when files come
    * with it. */
  lemma FilesOnlyWithOnSend(files: seq<PromptInput.Attachment>)
    requires files != []
    ensures HandleSubmit(PromptInput.Message(Some(""), Some(files)), false, true) == Outcome(None, true)
    ensures HandleSubmit(PromptInput.Message(Some(" "), Some(files)), false, true) == Outcome(Some(OnSend(" ")), true)
  {
    assert Text.LeadingSpace(" ") == 1;
  }

  /** Nothing of what the prompt input submits is lost on the way: the shared
    * guard there is the emptiness test here. */
  lemma GuardsAgree(text: string, files: seq<PromptInput.Attachment>)
    ensures Empty(PromptInput.Message(Some(text), Some(files))) <==> !PromptInput.HasContent(text, files)
  {
  }

  /** isDisabled: the prop, or any status other than idle, ready and error. */
  function IsDisabled(disabled: bool, status: PromptInput.ChatStatus): (b: bool)
    ensures b <==> disabled || status == PromptInput.Submitted || status == PromptInput.Streaming
  {
    disabled || (status != PromptInput.Idle && status != PromptInput.Ready && status != PromptInput.Error)
  }

  /** The disabled prop the submit button is given. */
  function SubmitDisabledProp(disabled: bool, status: PromptInput.ChatStatus, text: string): (b: bool)
    ensures b <==> IsDisabled(disabled, status) || Text.AllSpace(text)
  {
    Text.TrimEmptyIff(text);
    IsDisabled(disabled, status) || Text.Trim(text) == ""
  }

  /** While a reply is on its way the textarea is disabled but the button is
    * not, so the reply can always be stopped; otherwise the button is
    * disabled exactly when there is nothing to send or input is disabled. */
  lemma StopAlwaysAvailable(disabled: bool, status: PromptInput.ChatStatus, text: string)
    ensures PromptInput.IsStreaming(status) ==>
              IsDisabled(disabled, status) && !PromptInput.ButtonDisabled(status, SubmitDisabledProp(disabled, status, text))
    ensures !PromptInput.IsStreaming(status) ==>
              (PromptInput.ButtonDisabled(status, SubmitDisabledProp(disabled, status, text)) <==> disabled || Text.AllSpace(text))
  {
  }
}
