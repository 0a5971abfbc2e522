/**
 * The backflip clipboard editor's bookkeeping: the list of session slots
 * that `new_session` appends to and that each frame of `update` walks,
 * editing, focusing and closing sessions in place.
 *
 * A slot is never removed, only emptied, so a slot's index (and with it the
 * session's title and viewport id) is never handed out twice.
 */
module Backflip {
  import opened Win32
  import opened BackflipText

  /** `ViewportId::from_hash_of(s)`, identified by the string it hashes. */
  datatype ViewportId = ViewportId(source: string)

  datatype Session = Session(text: string, viewport: ViewportId, title: string, requestedFocus: bool)

  /** The number written after `prefix` in `s`, or 0 when `s` does not start with `prefix`. */
  function NumberAfter(prefix: string, s: string): nat {
    if StartsWith(s, prefix) then DigitsValue(s[|prefix|..]) else 0
  }

  /** The window title of the session in slot `index`: it names the index. */
  function Title(index: nat): (r: string)
    ensures StartsWith(r, "backflip ") && NumberAfter("backflip ", r) == index
  {
    DecimalValue(index);
    "backflip " + Decimal(index)
  }

  /** The viewport id of the session in slot `index`: it names the index. */
  function ViewportFor(index: nat): (r: ViewportId)
    ensures StartsWith(r.source, "session-") && NumberAfter("session-", r.source) == index
  {
    DecimalValue(index);
    ViewportId("session-" + Decimal(index))
  }

  /** Distinct slots get distinct titles and viewport ids. */
  lemma NamesUnique(i: nat, j: nat)
    requires i != j
    ensures Title(i) != Title(j) && ViewportFor(i) != ViewportFor(j)
  {
    DecimalInjective(i, j);
    assert Title(i)[9..] == Decimal(i) && Title(j)[9..] == Decimal(j);
    assert ViewportFor(i).source[8..] == Decimal(i) && ViewportFor(j).source[8..] == Decimal(j);
  }

  /** Every occupied slot carries the title and viewport id of its index. */
  predicate Numbered(slots: seq<Option<Session>>) {
    forall i :: 0 <= i < |slots| && slots[i].Some? ==>
      slots[i].value.title == Title(i) && slots[i].value.viewport == ViewportFor(i)
  }

  /** No two open sessions share a title or a viewport. */
  lemma {:induction false} OpenSessionsDistinct(slots: seq<Option<Session>>, i: nat, j: nat)
    requires Numbered(slots)
    requires i < |slots| && j < |slots| && i != j && slots[i].Some? && slots[j].Some?
    ensures slots[i].value.title != slots[j].value.title
    ensures slots[i].value.viewport != slots[j].value.viewport
  {
    NamesUnique(i, j);
  }

  /**
   * What the Windows clipboard offers: its text, if any, and its file list,
   * if any (each an attempted read that may fail).
   */
  datatype ClipboardRead = ClipboardRead(text: Option<string>, files: Option<seq<string>>)

  /** The text a new session starts with: the clipboard text, else the file names joined with commas. */
  function Capture(clip: ClipboardRead): (r: Option<string>)
    ensures r.None? <==> clip.text.None? && clip.files.None?
    ensures clip.text.Some? ==> r == clip.text
    ensures clip.text.None? && clip.files.Some? ==> r.value == Join(clip.files.value, ",")
  {
    match clip.text
    case Some(s) => Some(s)
    case None =>
      match clip.files
      case Some(files) => Some(Join(files, ","))
      case None => None
  }

  /**
   * A file list whose names hold no comma can be read back from the
   * captured text.
   */
  lemma CaptureFilesRecoverable(files: seq<string>)
    requires |files| > 0
    requires forall k, i :: 0 <= k < |files| && 0 <= i < |files[k]| ==> files[k][i] != ','
    ensures Split(Capture(ClipboardRead(None, Some(files))).value, ',') == files
  {
    SplitJoin(files);
  }

  /** The slots after `new_session` when the hotkey was pressed (or before, when it was not). */
  function Opened(slots: seq<Option<Session>>, clip: ClipboardRead): (r: seq<Option<Session>>)
    ensures Capture(clip).None? ==> r == slots
    ensures Capture(clip).Some? ==> |r| == |slots| + 1 && r[..|slots|] == slots
    ensures Capture(clip).Some? ==>
              r[|slots|] == Some(Session(Capture(clip).value, ViewportFor(|slots|), Title(|slots|), true))
    ensures Numbered(slots) ==> Numbered(r)
  {
    match Capture(clip)
    case None => slots
    case Some(c) =>
      var n := |slots|;
      slots + [Some(Session(c, ViewportFor(n), Title(n), true))]
  }

  /** What the user did to one session's viewport during a frame. */
  datatype SlotInput = SlotInput(closeRequested: bool, escape: bool, enter: bool, keyD: bool)

  predicate Closes(input: SlotInput) {
    input.closeRequested || input.escape || input.enter
  }

  /** One slot after a frame: closed, or with D applied and its focus request spent. */
  function UpdateSlot(slot: Option<Session>, input: SlotInput): (r: Option<Session>)
    ensures slot.None? ==> r.None?
    ensures r.None? <==> slot.None? || Closes(input)
    ensures r.Some? ==> !r.value.requestedFocus
    ensures r.Some? ==> r.value.title == slot.value.title && r.value.viewport == slot.value.viewport
    ensures r.Some? ==>
              r.value.text == (if input.keyD then ReverseSlashes(slot.value.text) else slot.value.text)
  {
    match slot
    case None => None
    case Some(s) =>
      if Closes(input) then None
      else
        var text := if input.keyD then ReverseSlashes(s.text) else s.text;
        Some(s.(text := text, requestedFocus := false))
  }

  /** All slots after a frame; `ui(i)` is what happened to slot i. */
  function UpdateSlots(slots: seq<Option<Session>>, ui: nat -> SlotInput): (r: seq<Option<Session>>)
    ensures |r| == |slots|
    ensures forall i :: 0 <= i < |slots| ==> r[i] == UpdateSlot(slots[i], ui(i))
  {
    seq(|slots|, i requires 0 <= i < |slots| => UpdateSlot(slots[i], ui(i)))
  }

  /** The indices, in order, among the first n slots, of sessions that ask for focus. */
  function FocusRequests(slots: seq<Option<Session>>, n: nat): (r: seq<nat>)
    requires n <= |slots|
    ensures forall i: nat {:trigger i in r} :: i in r <==> i < n && slots[i].Some? && slots[i].value.requestedFocus
    ensures forall a, b :: 0 <= a < b < |r| ==> r[a] < r[b]
  {
    if n == 0 then []
    else
      var earlier := FocusRequests(slots, n - 1);
      assert forall a :: 0 <= a < |earlier| ==> earlier[a] < n - 1 by {
        forall a | 0 <= a < |earlier| ensures earlier[a] < n - 1 {
          assert earlier[a] in earlier;
        }
      }
      if slots[n - 1].Some? && slots[n - 1].value.requestedFocus then earlier + [n - 1]
      else earlier
  }

  /** The indices, in order, among the first n slots, of open sessions in which Enter was pressed. */
  function EnterSlots(slots: seq<Option<Session>>, ui: nat -> SlotInput, n: nat): (r: seq<nat>)
    requires n <= |slots|
    ensures forall i: nat {:trigger i in r} :: i in r <==> i < n && slots[i].Some? && ui(i).enter
    ensures forall a, b :: 0 <= a < b < |r| ==> r[a] < r[b]
  {
    if n == 0 then []
    else
      var earlier := EnterSlots(slots, ui, n - 1);
      assert forall a :: 0 <= a < |earlier| ==> earlier[a] < n - 1 by {
        forall a | 0 <= a < |earlier| ensures earlier[a] < n - 1 {
          assert earlier[a] in earlier;
        }
      }
      if slots[n - 1].Some? && ui(n - 1).enter then earlier + [n - 1]
      else earlier
  }

  /**
   * The texts, in order, that Enter copies from the first n slots: one per
   * open session in which Enter was pressed, in slot order.
   */
  function Copies(slots: seq<Option<Session>>, ui: nat -> SlotInput, n: nat): (r: seq<string>)
    requires n <= |slots|
    ensures |r| <= n
  {
    if n == 0 then []
    else
      var earlier := Copies(slots, ui, n - 1);
      if slots[n - 1].Some? && ui(n - 1).enter then earlier + [slots[n - 1].value.text]
      else earlier
  }

  /**
   * Enter copies exactly one text per open session in which it was pressed,
   * in slot order.
   */
  lemma {:induction false} CopiesFollowEnterSlots(slots: seq<Option<Session>>, ui: nat -> SlotInput, n: nat)
    requires n <= |slots|
    ensures var r, e := Copies(slots, ui, n), EnterSlots(slots, ui, n);
            && |r| == |e|
            && forall k :: 0 <= k < |r| ==> e[k] < n && slots[e[k]].Some? && r[k] == slots[e[k]].value.text
    decreases n
  {
    if n > 0 {
      CopiesFollowEnterSlots(slots, ui, n - 1);
      var r0, e0 := Copies(slots, ui, n - 1), EnterSlots(slots, ui, n - 1);
      var r, e := Copies(slots, ui, n), EnterSlots(slots, ui, n);
      if slots[n - 1].Some? && ui(n - 1).enter {
        assert r == r0 + [slots[n - 1].value.text] && e == e0 + [n - 1];
      } else {
        assert r == r0 && e == e0;
      }
    }
  }

  /** Enter copies the text as it was before D of the same frame applied. */
  lemma {:induction false} CopiesCarryOldText(slots: seq<Option<Session>>, ui: nat -> SlotInput, n: nat, s: string)
    requires n <= |slots|
    ensures s in Copies(slots, ui, n) ==>
              exists i :: 0 <= i < n && slots[i].Some? && ui(i).enter && slots[i].value.text == s
    decreases n
  {
    if n > 0 {
      CopiesCarryOldText(slots, ui, n - 1, s);
    }
  }

  /** After a frame no session asks for focus any more: each is focused at most once. */
  lemma {:induction false} FocusSpent(slots: seq<Option<Session>>, ui: nat -> SlotInput, n: nat)
    requires n <= |slots|
    ensures FocusRequests(UpdateSlots(slots, ui), n) == []
  {
    if n > 0 {
      FocusSpent(slots, ui, n - 1);
      assert UpdateSlots(slots, ui)[n - 1] == UpdateSlot(slots[n - 1], ui(n - 1));
    }
  }

  /** A frame keeps the slot numbering: closed slots are emptied, never removed. */
  lemma {:induction false} UpdateKeepsNumbering(slots: seq<Option<Session>>, ui: nat -> SlotInput)
    requires Numbered(slots)
    ensures Numbered(UpdateSlots(slots, ui))
  {
    var r := UpdateSlots(slots, ui);
    forall i | 0 <= i < |r| && r[i].Some?
      ensures r[i].value.title == Title(i) && r[i].value.viewport == ViewportFor(i)
    {
      assert r[i] == UpdateSlot(slots[i], ui(i));
    }
  }

  class App {
    var sessions: seq<Option<Session>>

    ghost predicate Valid()
      reads this
    {
      Numbered(sessions)
    }

    constructor Init()
      ensures sessions == [] && Valid()
    {
      sessions := [];
    }

    /**
     * `new_session` on Windows: reads the clipboard and, if it held text or
     * a file list, appends one session that asks for focus. Always Ok.
     */
    method NewSession(clip: ClipboardRead) returns (r: Status)
      requires Valid()
      modifies this
      ensures Valid()
      ensures r == Ok(())
      ensures sessions == Opened(old(sessions), clip)
    {
      var captured := Capture(clip);
      if captured.Some? {
        var n := |sessions|;
        var s := Session(captured.value, ViewportFor(n), Title(n), true);
        sessions := sessions + [Some(s)];
      }
      r := Ok(());
    }

    /**
     * One session's viewport for one frame: the keys it reacts to, whether
     * it asks the window manager for focus, and the text Enter copies.
     */
    static method ShowSession(slot0: Option<Session>, input: SlotInput)
      returns (slot: Option<Session>, focus: bool, copy: Option<string>)
      ensures slot == UpdateSlot(slot0, input)
      ensures focus <==> slot0.Some? && slot0.value.requestedFocus
      ensures copy == (if slot0.Some? && input.enter then Some(slot0.value.text) else None)
    {
      var closing := false;
      slot, focus, copy := slot0, false, None;
      if slot0.Some? {
        var session := slot0.value;
        if input.closeRequested {
          closing := true;
        }
        if input.escape {
          closing := true;
        }
        if input.enter {
          copy := Some(session.text);
          closing := true;
        }
        if input.keyD {
          session := session.(text := ReverseSlashes(session.text));
        }
        if session.requestedFocus {
          session := session.(requestedFocus := false);
          focus := true;
        }
        slot := Some(session);
      }
      if closing {
        slot := None;
      }
    }

    /**
     * The `for session in &mut self.sessions` loop of `update`: shows each
     * slot's viewport in order, updating the slot in place. Returns the slots
     * sent a focus command and the texts Enter put on the clipboard.
     */
    method ShowSessions(ui: nat -> SlotInput) returns (focused: seq<nat>, copied: seq<string>)
      modifies this
      ensures sessions == UpdateSlots(old(sessions), ui)
      ensures focused == FocusRequests(old(sessions), |old(sessions)|)
      ensures copied == Copies(old(sessions), ui, |old(sessions)|)
    {
      ghost var arrived := sessions;
      focused, copied := [], [];
      for i := 0 to |sessions|
        invariant |sessions| == |arrived|
        invariant forall k :: 0 <= k < i ==> sessions[k] == UpdateSlot(arrived[k], ui(k))
        invariant forall k :: i <= k < |sessions| ==> sessions[k] == arrived[k]
        invariant focused == FocusRequests(arrived, i)
        invariant copied == Copies(arrived, ui, i)
      {
        var slot, focus, copy := ShowSession(sessions[i], ui(i));
        if focus {
          focused := focused + [i];
        }
        if copy.Some? {
          copied := copied + [copy.value];
        }
        sessions := sessions[i := slot];
      }
    }

    /**
     * One frame of `update`: a new session if the hotkey fired, then each
     * slot in order. Returns the slots sent a focus command and the texts
     * Enter put on the clipboard.
     */
    method Update(hotkey: bool, clip: ClipboardRead, ui: nat -> SlotInput)
      returns (focused: seq<nat>, copied: seq<string>)
      requires Valid()
      modifies this
      ensures Valid()
      ensures var arrived := if hotkey then Opened(old(sessions), clip) else old(sessions);
              && sessions == UpdateSlots(arrived, ui)
              && focused == FocusRequests(arrived, |arrived|)
              && copied == Copies(arrived, ui, |arrived|)
    {
      if hotkey {
        var _ := NewSession(clip);
      }
      ghost var arrived := sessions;
      focused, copied := ShowSessions(ui);
      UpdateKeepsNumbering(arrived, ui);
    }
  }
}
