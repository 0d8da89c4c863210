// The prompt input's attachment list and its two submit paths: the Enter
// key in the textarea and the submit/stop button. File ids (built from the
// clock and a random number) are the parameter `idOf`, one per incoming file;
// image previews, read asynchronously, are not part of the list's contract.
module PromptInput {
  import opened Wrappers
  import Text

  datatype ChatStatus = Idle | Submitted | Streaming | Ready | Error

  datatype FileInfo = FileInfo(name: string, size: nat, mime: string)
  datatype Attachment = Attachment(id: string, file: FileInfo)

  /** `{ text?, files? }`; the prompt input itself always sets both. */
  datatype Message = Message(text: Option<string>, files: Option<seq<Attachment>>)

  /** The maxFiles and maxFileSize props; `None` is undefined. */
  datatype Limits = Limits(maxFiles: Option<int>, maxFileSize: Option<int>)

  /** A numeric prop that is truthy. */
  predicate Given(o: Option<int>)
  {
    o.Some? && o.value != 0
  }

  predicate TooBig(l: Limits, f: FileInfo)
  {
    Given(l.maxFileSize) && f.size > l.maxFileSize.value
  }

  predicate Full(l: Limits, count: int)
  {
    Given(l.maxFiles) && count >= l.maxFiles.value
  }

  function SizeError(name: string): string
  {
    "File \"" + name + "\" exceeds the size limit."
  }

  function CountError(maxFiles: int): string
  {
    "Maximum " + Text.IntToString(maxFiles) + " files allowed."
  }

  /** The files accepted so far and the errors reported so far. */
  datatype Admission = Admission(added: seq<Attachment>, errors: seq<string>)

  /** The admission loop from incoming file `i` on, `existing` files being
    * already attached: an oversized file is reported and skipped, a full
    * list is reported and ends the loop, any other file is accepted. */
  function Admit(existing: nat, l: Limits, incoming: seq<FileInfo>, idOf: nat -> string, i: nat, acc: Admission): Admission
    requires i <= |incoming|
    decreases |incoming| - i
  {
    if i == |incoming| then acc
    else if TooBig(l, incoming[i]) then
      Admit(existing, l, incoming, idOf, i + 1, acc.(errors := acc.errors + [SizeError(incoming[i].name)]))
    else if Full(l, existing + |acc.added|) then
      acc.(errors := acc.errors + [CountError(l.maxFiles.value)])
    else
      Admit(existing, l, incoming, idOf, i + 1, acc.(added := acc.added + [Attachment(idOf(i), incoming[i])]))
  }

  /** The incoming files from `i` on that pass the size check, in order. */
  function InSize(l: Limits, incoming: seq<FileInfo>, idOf: nat -> string, i: nat): (r: seq<Attachment>)
    requires i <= |incoming|
    ensures |r| <= |incoming| - i
    ensures forall k | 0 <= k < |r| :: !TooBig(l, r[k].file)
    decreases |incoming| - i
  {
    if i == |incoming| then []
    else if TooBig(l, incoming[i]) then InSize(l, incoming, idOf, i + 1)
    else [Attachment(idOf(i), incoming[i])] + InSize(l, incoming, idOf, i + 1)
  }

  /** How many more files the list can take with `count` attached, or every
    * candidate (`total`) when maxFiles is not given. */
  function Room(l: Limits, count: int, total: nat): nat
  {
    if !Given(l.maxFiles) then total
    else if l.maxFiles.value - count <= 0 then 0
    else l.maxFiles.value - count
  }

  function Take<T>(s: seq<T>, n: nat): (r: seq<T>)
    ensures |r| <= n && |r| <= |s| && r == s[..|r|]
  {
    if n < |s| then s[..n] else s
  }

  /** What the loop accepts is the in-size files, in incoming order, cut to
    * the room left in the list. */
  lemma {:induction false} AdmitAccepts(existing: nat, l: Limits, incoming: seq<FileInfo>, idOf: nat -> string,
                                        i: nat, acc: Admission)
    requires i <= |incoming|
    ensures var s := InSize(l, incoming, idOf, i);
            Admit(existing, l, incoming, idOf, i, acc).added == acc.added + Take(s, Room(l, existing + |acc.added|, |s|))
    decreases |incoming| - i
  {
    var s := InSize(l, incoming, idOf, i);
    if i == |incoming| {
      assert acc.added + [] == acc.added;
    } else if TooBig(l, incoming[i]) {
      AdmitAccepts(existing, l, incoming, idOf, i + 1, acc.(errors := acc.errors + [SizeError(incoming[i].name)]));
    } else if Full(l, existing + |acc.added|) {
      assert Take(s, 0) == [];
      assert acc.added + [] == acc.added;
    } else {
      var a := Attachment(idOf(i), incoming[i]);
      var t := InSize(l, incoming, idOf, i + 1);
      var acc' := acc.(added := acc.added + [a]);
      AdmitAccepts(existing, l, incoming, idOf, i + 1, acc');
      var n := Room(l, existing + |acc.added|, |s|);
      assert n >= 1 && s == [a] + t;
      assert Room(l, existing + |acc'.added|, |t|) == n - 1;
      assert Take(s, n) == [a] + Take(t, n - 1);
    }
  }

  /** addFiles' outcome for a list that already holds `existing` attachments. */
  function AddFilesOutcome(existing: seq<Attachment>, l: Limits, incoming: seq<FileInfo>, idOf: nat -> string): Admission
  {
    Admit(|existing|, l, incoming, idOf, 0, Admission([], []))
  }

  /** The accepted files never overfill a list limited by maxFiles, and none
    * of them is over the size limit. */
  lemma AddFilesBounded(existing: seq<Attachment>, l: Limits, incoming: seq<FileInfo>, idOf: nat -> string)
    ensures var added := AddFilesOutcome(existing, l, incoming, idOf).added;
            && (Given(l.maxFiles) && l.maxFiles.value >= |existing| ==> |existing| + |added| <= l.maxFiles.value)
            && (Given(l.maxFiles) && l.maxFiles.value < |existing| ==> added == [])
            && (forall k | 0 <= k < |added| :: !TooBig(l, added[k].file))
            && (!Given(l.maxFiles) ==> added == InSize(l, incoming, idOf, 0))
  {
    AdmitAccepts(|existing|, l, incoming, idOf, 0, Admission([], []));
    var s := InSize(l, incoming, idOf, 0);
    var added := AddFilesOutcome(existing, l, incoming, idOf).added;
    assert [] + Take(s, Room(l, |existing|, |s|)) == added;
    assert forall k | 0 <= k < |added| :: added[k] == s[k];
  }

  /** addFiles: the loop over the incoming files; the accepted ones go after
    * the existing ones. */
  method AddFiles(files: seq<Attachment>, l: Limits, incoming: seq<FileInfo>, idOf: nat -> string)
    returns (next: seq<Attachment>, errors: seq<string>)
    ensures var out := AddFilesOutcome(files, l, incoming, idOf);
            next == files + out.added && errors == out.errors
  {
    var newFiles: seq<Attachment> := [];
    errors := [];
    var i := 0;
    while i < |incoming|
      invariant i <= |incoming|
      invariant Admit(|files|, l, incoming, idOf, i, Admission(newFiles, errors)) == AddFilesOutcome(files, l, incoming, idOf)
      decreases |incoming| - i
    {
      var file := incoming[i];
      if Given(l.maxFileSize) && file.size > l.maxFileSize.value {
        errors := errors + [SizeError(file.name)];
        i := i + 1;
        continue;
      }
      if Given(l.maxFiles) && |files| + |newFiles| >= l.maxFiles.value {
        errors := errors + [CountError(l.maxFiles.value)];
        break;
      }
      newFiles := newFiles + [Attachment(idOf(i), file)];
      i := i + 1;
    }
    next := files + newFiles;
  }

  /** Removing a file keeps every other file in order. */
  function Remove(files: seq<Attachment>, id: string): (r: seq<Attachment>)
    ensures |r| <= |files|
    ensures forall a | a in r :: a in files && a.id != id
    ensures forall a | a in files && a.id != id :: a in r
  {
    if files == [] then []
    else
      var rest := Remove(files[..|files| - 1], id);
      if files[|files| - 1].id != id then rest + [files[|files| - 1]] else rest
  }

  /** Removing keeps the other files in order: it distributes over concatenation. */
  lemma {:induction false} RemoveAppend(a: seq<Attachment>, b: seq<Attachment>, id: string)
    ensures Remove(a + b, id) == Remove(a, id) + Remove(b, id)
    decreases |b|
  {
    if b == [] {
      assert a + b == a;
    } else {
      var init := b[..|b| - 1];
      assert (a + b)[..|a + b| - 1] == a + init;
      RemoveAppend(a, init, id);
    }
  }

  /** Removing an id no file has changes nothing. */
  lemma {:induction false} RemoveAbsent(files: seq<Attachment>, id: string)
    requires forall k | 0 <= k < |files| :: files[k].id != id
    ensures Remove(files, id) == files
  {
    if files != [] {
      RemoveAbsent(files[..|files| - 1], id);
      assert files == files[..|files| - 1] + [files[|files| - 1]];
    }
  }

  function Clear(files: seq<Attachment>): (r: seq<Attachment>)
    ensures r == []
  {
    []
  }

  /** The guard both submit paths share: some non-whitespace text, or a file. */
  predicate HasContent(text: string, files: seq<Attachment>)
  {
    Text.Trim(text) != "" || |files| > 0
  }

  lemma HasContentIff(text: string, files: seq<Attachment>)
    ensures HasContent(text, files) <==> !Text.AllSpace(text) || files != []
  {
    Text.TrimEmptyIff(text);
  }

  /** What the textarea's key handler does, in order. */
  datatype KeyEffect = PreventDefault | SubmitToInput(msg: Message) | SubmitMessage(msg: Message) | ForwardKeyDown

  /** The textarea's keydown handler: Enter without Shift stops the newline
    * and, when the guard passes, submits `{text, files}` to the input and to
    * the textarea's own callback; the event is then forwarded, except when
    * the guard fails, which returns before forwarding. */
  function KeyDown(key: string, shift: bool, text: string, files: seq<Attachment>): (r: seq<KeyEffect>)
    ensures !(key == "Enter" && !shift) ==> r == [ForwardKeyDown]
    ensures key == "Enter" && !shift && !HasContent(text, files) ==> r == [PreventDefault]
    ensures key == "Enter" && !shift && HasContent(text, files) ==>
              var msg := Message(Some(text), Some(files));
              r == [PreventDefault, SubmitToInput(msg), SubmitMessage(msg), ForwardKeyDown]
  {
    if key == "Enter" && !shift then
      if !HasContent(text, files) then [PreventDefault]
      else
        var msg := Message(Some(text), Some(files));
        [PreventDefault, SubmitToInput(msg), SubmitMessage(msg), ForwardKeyDown]
    else [ForwardKeyDown]
  }

  predicate Submits(effects: seq<KeyEffect>)
  {
    exists k | 0 <= k < |effects| :: effects[k].SubmitToInput?
  }

  /** Enter submits exactly when Shift is up and there is something to send;
    * Shift+Enter never does. */
  lemma KeyDownSubmitsIff(key: string, shift: bool, text: string, files: seq<Attachment>)
    ensures Submits(KeyDown(key, shift, text, files)) <==> key == "Enter" && !shift && HasContent(text, files)
  {
    var r := KeyDown(key, shift, text, files);
    if key == "Enter" && !shift && HasContent(text, files) {
      assert r[1].SubmitToInput?;
    }
  }

  predicate IsStreaming(status: ChatStatus)
  {
    status == Streaming || status == Submitted
  }

  /** The disabled attribute of the submit button. */
  function ButtonDisabled(status: ChatStatus, disabled: bool): (b: bool)
    ensures b <==> !IsStreaming(status) && disabled
  {
    !IsStreaming(status) && disabled
  }

  /** The "disabled" look of the submit button, which also covers idle. */
  function LooksDisabled(status: ChatStatus, disabled: bool): (b: bool)
    ensures b <==> disabled || status == Idle
  {
    disabled || (!IsStreaming(status) && status == Idle)
  }

  /** A disabled button always looks disabled; an idle one looks disabled
    * without being disabled. */
  lemma DisabledLooksDisabled(status: ChatStatus, disabled: bool)
    ensures ButtonDisabled(status, disabled) ==> LooksDisabled(status, disabled)
    ensures !disabled && status == Idle ==> LooksDisabled(status, disabled) && !ButtonDisabled(status, disabled)
  {
  }

  datatype ClickOutcome = Stop | Submit(msg: Message, clearsTextarea: bool) | Ignored

  /** A click on the submit button: while a reply is on its way it stops it;
    * otherwise it reads the textarea (`None` when there is none, read as "")
    * and submits under the same guard, then empties the textarea. */
  function Click(status: ChatStatus, textarea: Option<string>, files: seq<Attachment>): (r: ClickOutcome)
    ensures IsStreaming(status) <==> r == Stop
    ensures r.Submit? <==> !IsStreaming(status) && HasContent(textarea.GetOr(""), files)
    ensures r.Submit? ==> r.msg == Message(Some(textarea.GetOr("")), Some(files)) && (r.clearsTextarea <==> textarea.Some?)
  {
    if IsStreaming(status) then Stop
    else
      var text := textarea.GetOr("");
      if !HasContent(text, files) then Ignored
      else Submit(Message(Some(text), Some(files)), textarea.Some?)
  }
}
