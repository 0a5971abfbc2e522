/**
 * The low-level keyboard hook's callback: it turns the hook's `wParam` and
 * the `KBDLLHOOKSTRUCT` behind `lParam` into a `HookMessage` for whoever
 * installed a sender, and always passes the event on to the next hook.
 *
 * Of the four key message constants the classification names, only
 * `WM_KEYDOWN` is in scope; the `WM_KEYUP` arm is therefore a binding that
 * matches every other value, and the two `WM_SYS*` arms can never be taken.
 * `ClassifyAsWritten` models that; `Classify` is the four-way
 * classification the arms spell out.
 */
module KeyHook {
  import opened Win32

  datatype Direction = Up | Down

  /** `KBDLLHOOKSTRUCT`. */
  datatype KbdHook = KbdHook(vkCode: u32, scanCode: u32, flags: u32, time: u32, extraInfo: nat)

  datatype HookMessage = Key(direction: Direction, sys: bool, data: KbdHook)

  /** `wParam.0 as u32`: the low 32 bits of the pointer-sized parameter. */
  function Low32(w: nat): u32 {
    w % 0x1_0000_0000
  }

  /** The classification as the callback performs it. */
  function ClassifyAsWritten(wParam: nat, kb: KbdHook): (m: HookMessage)
    ensures m.data == kb
    ensures !m.sys
    ensures m.direction == Down <==> Low32(wParam) == WM_KEYDOWN
  {
    match Low32(wParam)
    case 0x0100 => Key(Down, false, kb)
    case _ => Key(Up, false, kb)
  }

  /**
   * The classification the match arms describe: key-down and key-up, plain
   * or system, and nothing for any other message.
   */
  function Classify(wParam: nat, kb: KbdHook): (m: Option<HookMessage>)
    ensures m.Some? <==> Low32(wParam) in {WM_KEYDOWN, WM_KEYUP, WM_SYSKEYDOWN, WM_SYSKEYUP}
    ensures m.Some? ==> m.value.data == kb
    ensures m.Some? ==> (m.value.sys <==> Low32(wParam) in {WM_SYSKEYDOWN, WM_SYSKEYUP})
    ensures m.Some? ==> (m.value.direction == Down <==> Low32(wParam) in {WM_KEYDOWN, WM_SYSKEYDOWN})
  {
    var w := Low32(wParam);
    if w == WM_KEYDOWN then Some(Key(Down, false, kb))
    else if w == WM_KEYUP then Some(Key(Up, false, kb))
    else if w == WM_SYSKEYDOWN then Some(Key(Down, true, kb))
    else if w == WM_SYSKEYUP then Some(Key(Up, true, kb))
    else None
  }

  /** On plain key-down and key-up the two classifications agree. */
  lemma PlainKeysAgree(wParam: nat, kb: KbdHook)
    requires Low32(wParam) == WM_KEYDOWN || Low32(wParam) == WM_KEYUP
    ensures Classify(wParam, kb) == Some(ClassifyAsWritten(wParam, kb))
  {
  }

  /** A system key press (Alt held) is reported as a plain key release. */
  lemma SysKeyDownMisread(kb: KbdHook)
    ensures ClassifyAsWritten(WM_SYSKEYDOWN as nat, kb) == Key(Up, false, kb)
    ensures Classify(WM_SYSKEYDOWN as nat, kb) == Some(Key(Down, true, kb))
  {
  }

  /** What reading `KEY_SENDER` gives. */
  datatype SenderSlot = Poisoned | NoSender | Installed

  /** The arguments the callback hands to `CallNextHookEx`. */
  datatype NextHook = NextHook(code: int, wParam: nat, lParam: nat)

  /** What one callback does: the message it sends, if any, and the call it forwards. */
  datatype CallbackEffect = CallbackEffect(sent: Option<HookMessage>, forwarded: NextHook)

  /**
   * `hook_callback`: `kb` is the structure `lParam` points to. A message is
   * sent only when the lock reads and a sender is installed; whatever
   * happens, the event goes on to the next hook unchanged.
   */
  function HookCallback(slot: SenderSlot, code: int, wParam: nat, lParam: nat, kb: KbdHook)
    : (e: CallbackEffect)
    ensures e.forwarded == NextHook(code, wParam, lParam)
    ensures e.sent.Some? <==> slot == Installed
    ensures e.sent.Some? ==> e.sent.value.data == kb && !e.sent.value.sys
    ensures e.sent.Some? ==> (e.sent.value.direction == Down <==> Low32(wParam) == WM_KEYDOWN)
  {
    var sent := match slot
      case Installed => Some(ClassifyAsWritten(wParam, kb))
      case _ => None;
    CallbackEffect(sent, NextHook(code, wParam, lParam))
  }
}
