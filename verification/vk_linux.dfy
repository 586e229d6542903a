/**
 * The virtual-key table of flair/hook/vk_linux.py: Windows virtual-key codes and
 * their symbolic names, used on Linux where no key-name API is available.
 *
 * The dict literal is written as eight blocks of 0x20 codes each, so that each
 * block is a match the verifier can case-split on its own. Code 0x92 is written
 * twice in the literal ('VK_OEM_NEC_EQUAL', then 'VK_OEM_FJ_JISHO'); a Python
 * dict keeps the later value, and that is the only one the table holds.
 */
module VkLinux {
  import opened Wrappers
  import Text

  /** `vk_keycodes.get(code)`: the name the table gives a code, if any. */
  function VkName(code: int): (r: Option<string>)
    ensures r.Some? ==> 0x01 <= code <= 0xFE
  {
    if code < 0x20 then Block00(code)
    else if code < 0x40 then Block20(code)
    else if code < 0x60 then Block40(code)
    else if code < 0x80 then Block60(code)
    else if code < 0xA0 then Block80(code)
    else if code < 0xC0 then BlockA0(code)
    else if code < 0xE0 then BlockC0(code)
    else BlockE0(code)
  }

  function Block00(code: int): Option<string> {
    match code
      case 0x01 => Some("VK_LBUTTON")
      case 0x02 => Some("VK_RBUTTON")
      case 0x03 => Some("VK_CANCEL")
      case 0x04 => Some("VK_MBUTTON")
      case 0x05 => Some("VK_XBUTTON1")
      case 0x06 => Some("VK_XBUTTON2")
      case 0x08 => Some("VK_BACK")
      case 0x09 => Some("VK_TAB")
      case 0x0C => Some("VK_CLEAR")
      case 0x0D => Some("VK_RETURN")
      case 0x10 => Some("VK_SHIFT")
      case 0x11 => Some("VK_CONTROL")
      case 0x12 => Some("VK_MENU")
      case 0x13 => Some("VK_PAUSE")
      case 0x14 => Some("VK_CAPITAL")
      case 0x15 => Some("VK_HANGUL")
      case 0x17 => Some("VK_JUNJA")
      case 0x18 => Some("VK_FINAL")
      case 0x19 => Some("VK_KANJI")
      case 0x1B => Some("VK_ESCAPE")
      case 0x1C => Some("VK_CONVERT")
      case 0x1D => Some("VK_NONCONVERT")
      case 0x1E => Some("VK_ACCEPT")
      case 0x1F => Some("VK_MODECHANGE")
      case _ => None
  }

  lemma Block00WellFormed()
    ensures forall k :: Block00(k).Some? ==> 0x01 <= k < 0x20 && WellFormedName(Block00(k).value)
  {
  }

  function Block20(code: int): Option<string> {
    match code
      case 0x20 => Some("VK_SPACE")
      case 0x21 => Some("VK_PRIOR")
      case 0x22 => Some("VK_NEXT")
      case 0x23 => Some("VK_END")
      case 0x24 => Some("VK_HOME")
      case 0x25 => Some("VK_LEFT")
      case 0x26 => Some("VK_UP")
      case 0x27 => Some("VK_RIGHT")
      case 0x28 => Some("VK_DOWN")
      case 0x29 => Some("VK_SELECT")
      case 0x2A => Some("VK_PRINT")
      case 0x2B => Some("VK_EXECUTE")
      case 0x2C => Some("VK_SNAPSHOT")
      case 0x2D => Some("VK_INSERT")
      case 0x2E => Some("VK_DELETE")
      case 0x2F => Some("VK_HELP")
      case 0x30 => Some("VK_0")
      case 0x31 => Some("VK_1")
      case 0x32 => Some("VK_2")
      case 0x33 => Some("VK_3")
      case 0x34 => Some("VK_4")
      case 0x35 => Some("VK_5")
      case 0x36 => Some("VK_6")
      case 0x37 => Some("VK_7")
      case 0x38 => Some("VK_8")
      case 0x39 => Some("VK_9")
      case _ => None
  }

  lemma Block20WellFormed()
    ensures forall k :: Block20(k).Some? ==> 0x20 <= k < 0x40 && WellFormedName(Block20(k).value)
  {
  }

  function Block40(code: int): Option<string> {
    match code
      case 0x41 => Some("VK_A")
      case 0x42 => Some("VK_B")
      case 0x43 => Some("VK_C")
      case 0x44 => Some("VK_D")
      case 0x45 => Some("VK_E")
      case 0x46 => Some("VK_F")
      case 0x47 => Some("VK_G")
      case 0x48 => Some("VK_H")
      case 0x49 => Some("VK_I")
      case 0x4A => Some("VK_J")
      case 0x4B => Some("VK_K")
      case 0x4C => Some("VK_L")
      case 0x4D => Some("VK_M")
      case 0x4E => Some("VK_N")
      case 0x4F => Some("VK_O")
      case 0x50 => Some("VK_P")
      case 0x51 => Some("VK_Q")
      case 0x52 => Some("VK_R")
      case 0x53 => Some("VK_S")
      case 0x54 => Some("VK_T")
      case 0x55 => Some("VK_U")
      case 0x56 => Some("VK_V")
      case 0x57 => Some("VK_W")
      case 0x58 => Some("VK_X")
      case 0x59 => Some("VK_Y")
      case 0x5A => Some("VK_Z")
      case 0x5B => Some("VK_LWIN")
      case 0x5C => Some("VK_RWIN")
      case 0x5D => Some("VK_APPS")
      case 0x5F => Some("VK_SLEEP")
      case _ => None
  }

  lemma Block40WellFormed()
    ensures forall k :: Block40(k).Some? ==> 0x40 <= k < 0x60 && WellFormedName(Block40(k).value)
  {
  }

  function Block60(code: int): Option<string> {
    match code
      case 0x60 => Some("VK_NUMPAD0")
      case 0x61 => Some("VK_NUMPAD1")
      case 0x62 => Some("VK_NUMPAD2")
      case 0x63 => Some("VK_NUMPAD3")
      case 0x64 => Some("VK_NUMPAD4")
      case 0x65 => Some("VK_NUMPAD5")
      case 0x66 => Some("VK_NUMPAD6")
      case 0x67 => Some("VK_NUMPAD7")
      case 0x68 => Some("VK_NUMPAD8")
      case 0x69 => Some("VK_NUMPAD9")
      case 0x6A => Some("VK_MULTIPLY")
      case 0x6B => Some("VK_ADD")
      case 0x6C => Some("VK_SEPARATOR")
      case 0x6D => Some("VK_SUBTRACT")
      case 0x6E => Some("VK_DECIMAL")
      case 0x6F => Some("VK_DIVIDE")
      case 0x70 => Some("VK_F1")
      case 0x71 => Some("VK_F2")
      case 0x72 => Some("VK_F3")
      case 0x73 => Some("VK_F4")
      case 0x74 => Some("VK_F5")
      case 0x75 => Some("VK_F6")
      case 0x76 => Some("VK_F7")
      case 0x77 => Some("VK_F8")
      case 0x78 => Some("VK_F9")
      case 0x79 => Some("VK_F10")
      case 0x7A => Some("VK_F11")
      case 0x7B => Some("VK_F12")
      case 0x7C => Some("VK_F13")
      case 0x7D => Some("VK_F14")
      case 0x7E => Some("VK_F15")
      case 0x7F => Some("VK_F16")
      case _ => None
  }

  lemma Block60WellFormed()
    ensures forall k :: Block60(k).Some? ==> 0x60 <= k < 0x80 && WellFormedName(Block60(k).value)
  {
  }

  function Block80(code: int): Option<string> {
    match code
      case 0x80 => Some("VK_F17")
      case 0x81 => Some("VK_F18")
      case 0x82 => Some("VK_F19")
      case 0x83 => Some("VK_F20")
      case 0x84 => Some("VK_F21")
      case 0x85 => Some("VK_F22")
      case 0x86 => Some("VK_F23")
      case 0x87 => Some("VK_F24")
      case 0x88 => Some("VK_NAVIGATION_VIEW")
      case 0x89 => Some("VK_NAVIGATION_MENU")
      case 0x8A => Some("VK_NAVIGATION_UP")
      case 0x8B => Some("VK_NAVIGATION_DOWN")
      case 0x8C => Some("VK_NAVIGATION_LEFT")
      case 0x8D => Some("VK_NAVIGATION_RIGHT")
      case 0x8E => Some("VK_NAVIGATION_ACCEPT")
      case 0x8F => Some("VK_NAVIGATION_CANCEL")
      case 0x90 => Some("VK_NUMLOCK")
      case 0x91 => Some("VK_SCROLL")
      case 0x92 => Some("VK_OEM_FJ_JISHO")
      case 0x93 => Some("VK_OEM_FJ_MASSHOU")
      case 0x94 => Some("VK_OEM_FJ_TOUROKU")
      case 0x95 => Some("VK_OEM_FJ_LOYA")
      case 0x96 => Some("VK_OEM_FJ_ROYA")
      case _ => None
  }

  lemma Block80WellFormed()
    ensures forall k :: Block80(k).Some? ==> 0x80 <= k < 0xa0 && WellFormedName(Block80(k).value)
  {
  }

  function BlockA0(code: int): Option<string> {
    match code
      case 0xA0 => Some("VK_LSHIFT")
      case 0xA1 => Some("VK_RSHIFT")
      case 0xA2 => Some("VK_LCONTROL")
      case 0xA3 => Some("VK_RCONTROL")
      case 0xA4 => Some("VK_LMENU")
      case 0xA5 => Some("VK_RMENU")
      case 0xA6 => Some("VK_BROWSER_BACK")
      case 0xA7 => Some("VK_BROWSER_FORWARD")
      case 0xA8 => Some("VK_BROWSER_REFRESH")
      case 0xA9 => Some("VK_BROWSER_STOP")
      case 0xAA => Some("VK_BROWSER_SEARCH")
      case 0xAB => Some("VK_BROWSER_FAVORITES")
      case 0xAC => Some("VK_BROWSER_HOME")
      case 0xAD => Some("VK_VOLUME_MUTE")
      case 0xAE => Some("VK_VOLUME_DOWN")
      case 0xAF => Some("VK_VOLUME_UP")
      case 0xB0 => Some("VK_MEDIA_NEXT_TRACK")
      case 0xB1 => Some("VK_MEDIA_PREV_TRACK")
      case 0xB2 => Some("VK_MEDIA_STOP")
      case 0xB3 => Some("VK_MEDIA_PLAY_PAUSE")
      case 0xB4 => Some("VK_LAUNCH_MAIL")
      case 0xB5 => Some("VK_LAUNCH_MEDIA_SELECT")
      case 0xB6 => Some("VK_LAUNCH_APP1")
      case 0xB7 => Some("VK_LAUNCH_APP2")
      case 0xBA => Some("VK_OEM_1")
      case 0xBB => Some("VK_OEM_PLUS")
      case 0xBC => Some("VK_OEM_COMMA")
      case 0xBD => Some("VK_OEM_MINUS")
      case 0xBE => Some("VK_OEM_PERIOD")
      case 0xBF => Some("VK_OEM_2")
      case _ => None
  }

  lemma BlockA0WellFormed()
    ensures forall k :: BlockA0(k).Some? ==> 0xa0 <= k < 0xc0 && WellFormedName(BlockA0(k).value)
  {
  }

  function BlockC0(code: int): Option<string> {
    match code
      case 0xC0 => Some("VK_OEM_3")
      case 0xC3 => Some("VK_GAMEPAD_A")
      case 0xC4 => Some("VK_GAMEPAD_B")
      case 0xC5 => Some("VK_GAMEPAD_X")
      case 0xC6 => Some("VK_GAMEPAD_Y")
      case 0xC7 => Some("VK_GAMEPAD_RIGHT_SHOULDER")
      case 0xC8 => Some("VK_GAMEPAD_LEFT_SHOULDER")
      case 0xC9 => Some("VK_GAMEPAD_LEFT_TRIGGER")
      case 0xCA => Some("VK_GAMEPAD_RIGHT_TRIGGER")
      case 0xCB => Some("VK_GAMEPAD_DPAD_UP")
      case 0xCC => Some("VK_GAMEPAD_DPAD_DOWN")
      case 0xCD => Some("VK_GAMEPAD_DPAD_LEFT")
      case 0xCE => Some("VK_GAMEPAD_DPAD_RIGHT")
      case 0xCF => Some("VK_GAMEPAD_MENU")
      case 0xD0 => Some("VK_GAMEPAD_VIEW")
      case 0xD1 => Some("VK_GAMEPAD_LEFT_THUMBSTICK_BUTTON")
      case 0xD2 => Some("VK_GAMEPAD_RIGHT_THUMBSTICK_BUTTON")
      case 0xD3 => Some("VK_GAMEPAD_LEFT_THUMBSTICK_UP")
      case 0xD4 => Some("VK_GAMEPAD_LEFT_THUMBSTICK_DOWN")
      case 0xD5 => Some("VK_GAMEPAD_LEFT_THUMBSTICK_RIGHT")
      case 0xD6 => Some("VK_GAMEPAD_LEFT_THUMBSTICK_LEFT")
      case 0xD7 => Some("VK_GAMEPAD_RIGHT_THUMBSTICK_UP")
      case 0xD8 => Some("VK_GAMEPAD_RIGHT_THUMBSTICK_DOWN")
      case 0xD9 => Some("VK_GAMEPAD_RIGHT_THUMBSTICK_RIGHT")
      case 0xDA => Some("VK_GAMEPAD_RIGHT_THUMBSTICK_LEFT")
      case 0xDB => Some("VK_OEM_4")
      case 0xDC => Some("VK_OEM_5")
      case 0xDD => Some("VK_OEM_6")
      case 0xDE => Some("VK_OEM_7")
      case 0xDF => Some("VK_OEM_8")
      case _ => None
  }

  lemma BlockC0WellFormed()
    ensures forall k :: BlockC0(k).Some? ==> 0xc0 <= k < 0xe0 && WellFormedName(BlockC0(k).value)
  {
  }

  function BlockE0(code: int): Option<string> {
    match code
      case 0xE1 => Some("VK_OEM_AX")
      case 0xE2 => Some("VK_OEM_102")
      case 0xE3 => Some("VK_ICO_HELP")
      case 0xE4 => Some("VK_ICO_00")
      case 0xE5 => Some("VK_PROCESSKEY")
      case 0xE6 => Some("VK_ICO_CLEAR")
      case 0xE7 => Some("VK_PACKET")
      case 0xE9 => Some("VK_OEM_RESET")
      case 0xEA => Some("VK_OEM_JUMP")
      case 0xEB => Some("VK_OEM_PA1")
      case 0xEC => Some("VK_OEM_PA2")
      case 0xED => Some("VK_OEM_PA3")
      case 0xEE => Some("VK_OEM_WSCTRL")
      case 0xEF => Some("VK_OEM_CUSEL")
      case 0xF0 => Some("VK_OEM_ATTN")
      case 0xF1 => Some("VK_OEM_FINISH")
      case 0xF2 => Some("VK_OEM_COPY")
      case 0xF3 => Some("VK_OEM_AUTO")
      case 0xF4 => Some("VK_OEM_ENLW")
      case 0xF5 => Some("VK_OEM_BACKTAB")
      case 0xF6 => Some("VK_ATTN")
      case 0xF7 => Some("VK_CRSEL")
      case 0xF8 => Some("VK_EXSEL")
      case 0xF9 => Some("VK_EREOF")
      case 0xFA => Some("VK_PLAY")
      case 0xFB => Some("VK_ZOOM")
      case 0xFC => Some("VK_NONAME")
      case 0xFD => Some("VK_PA1")
      case 0xFE => Some("VK_OEM_CLEAR")
      case _ => None
  }

  lemma BlockE0WellFormed()
    ensures forall k :: BlockE0(k).Some? ==> 0xe0 <= k < 0xff && WellFormedName(BlockE0(k).value)
  {
  }

  /** A well-formed name: 'VK_' followed by a non-empty token before any further '_'. */
  predicate WellFormedName(name: string) {
    |name| > 3 && name[..3] == "VK_" && name[3] != '_'
  }

  /** The later of the two 0x92 entries is the one the dict keeps. */
  lemma DuplicateCodeKeepsLaterName()
    ensures VkName(0x92) == Some("VK_OEM_FJ_JISHO")
  {
  }

  /** Reserved and unassigned codes have no entry. */
  lemma ReservedCodesAbsent()
    ensures VkName(0x07).None? && VkName(0x0A).None? && VkName(0x0B).None?
    ensures VkName(0x0E).None? && VkName(0x0F).None?
    ensures forall k :: 0x3A <= k <= 0x40 ==> VkName(k).None?
  {
  }

  /** Digit and letter keys are named by their own character. */
  lemma NamedByOwnCharacter(k: int)
    requires 0x30 <= k <= 0x39 || 0x41 <= k <= 0x5A
    ensures VkName(k) == Some("VK_" + [k as char])
  {
    assert VkName(k).Some? && |VkName(k).value| == 4 && VkName(k).value[3] == k as char;
    EveryNameWellFormed(k);
    var name := VkName(k).value;
    assert name == name[..3] + [name[3]];
  }

  /** 0x70 to 0x87 are the function keys F1 to F24, in order. */
  lemma FunctionKey(k: int)
    requires 0x70 <= k <= 0x87
    ensures VkName(k) == Some("VK_F" + Text.Decimal(k - 0x6F))
  {
    assert VkName(k).Some? && VkName(k).value[..4] == "VK_F" && VkName(k).value[4..] == Text.Decimal(k - 0x6F);
    var name := VkName(k).value;
    assert name == name[..4] + name[4..];
  }

  /** Every key lies in 0x01..0xFE and every name splits on '_' into at least two tokens. */
  lemma EveryNameWellFormed(code: int)
    requires VkName(code).Some?
    ensures 0x01 <= code <= 0xFE
    ensures WellFormedName(VkName(code).value)
  {
    Block00WellFormed();
    Block20WellFormed();
    Block40WellFormed();
    Block60WellFormed();
    Block80WellFormed();
    BlockA0WellFormed();
    BlockC0WellFormed();
    BlockE0WellFormed();
  }
}
