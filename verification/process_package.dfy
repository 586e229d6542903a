/**
 * The platform-independent part of the memory reader (flair/hook/process/__init__.py):
 * the table of static addresses, the buffer size of each read, and the flags
 * derived from raw values. A scalar read that fails yields `datatype()`, a fresh
 * ctypes object rather than an integer: it is falsy, and it compares equal to
 * nothing, not even to another such object.
 */
module ProcessPackage {
  import opened Wrappers

  /** The ctypes types of `READ_ADDRESSES`. */
  datatype DataType = Str | CUInt | CUInt32 | CFloat

  /** What a scalar read returns: the integer read, or the ctypes object of a failed read. */
  datatype Scalar = Number(n: int) | CObject

  /** `bool(v)`: a ctypes object holding zero is falsy, like the integer 0. */
  predicate Truthy(v: Scalar) {
    v.Number? && v.n != 0
  }

  /** `a == b`: integers compare by value; a ctypes object defines no equality, so it compares by identity. */
  predicate PyEq(a: Scalar, b: Scalar) {
    a.Number? && b.Number? && a.n == b.n
  }

  /** A failed read is a fresh object each time, so it equals no value, not even the last failed read. */
  lemma FailedReadEqualsNothing(v: Scalar)
    ensures !PyEq(CObject, v) && !PyEq(v, CObject) && !Truthy(CObject)
    ensures PyEq(v, v) <==> v.Number?
  {
  }

  /** `ctypes.sizeof`; `sizeof(str)` raises TypeError. */
  function SizeOf(t: DataType): Option<nat> {
    match t
    case Str => None
    case CUInt | CUInt32 | CFloat => Some(4)
  }

  /** Offsets for the v1.1 executable. */
  const ReadAddresses: map<string, (int, DataType)> := map[
    "last_message"   := (0x66D4F2, Str),
    "mouseover"      := (0x66DC60, Str),
    "rollover"       := (0x66FC60, Str),
    "name"           := (0x6732F0, Str),
    "credits"        := (0x673364, CUInt),
    "pos_x"          := (0x6732E4, CFloat),
    "pos_y"          := (0x6732E8, CFloat),
    "pos_z"          := (0x6732EC, CFloat),
    "enter_dialogue" := (0x67C3AC, CUInt32),
    "focus_dialogue" := (0x667D54, CUInt32),
    "logged_in"      := (0x67E9D4, CUInt32),
    "singleplayer"   := (0x67334C, CUInt32),
    "in_space"       := (0x673560, CUInt32)
  ]

  /** What `get_value` hands to `read_memory`. */
  datatype Request = Request(address: int, kind: DataType, bufferSize: int)

  /**
   * `get_value(process, key, size)`: `size or sizeof(type) * 8`, so an absent
   * or zero size falls back to the default, which a string key does not have.
   */
  function GetValue(key: string, size: Option<int>): (r: Result<Request>)
    ensures key !in ReadAddresses ==> r == Err(KeyError)
    ensures r.Ok? ==> key in ReadAddresses && (r.value.address, r.value.kind) == ReadAddresses[key]
    ensures r.Ok? && size.Some? && size.value != 0 ==> r.value.bufferSize == size.value
    ensures r.Ok? && (size.None? || size.value == 0) ==> r.value.bufferSize == 32
    ensures key in ReadAddresses && (size.None? || size.value == 0) ==>
      (r == Err(TypeError) <==> ReadAddresses[key].1 == Str)
  {
    if key !in ReadAddresses then Err(KeyError)
    else
      var (address, kind) := ReadAddresses[key];
      if size.Some? && size.value != 0 then Ok(Request(address, kind, size.value))
      else match SizeOf(kind)
        case None => Err(TypeError)
        case Some(n) => Ok(Request(address, kind, n * 8))
  }

  /** `get_string(process, key, length)`: room for `length` UTF-16 units plus the terminator. */
  function GetString(key: string, length: int): (r: Result<Request>)
    ensures key !in ReadAddresses ==> r == Err(KeyError)
    ensures key in ReadAddresses && length != -1 ==>
      r.Ok? && (r.value.address, r.value.kind) == ReadAddresses[key] && r.value.bufferSize == 2 * length + 2
  {
    GetValue(key, Some(length * 2 + 2))
  }

  /** The reads issued by `get_name`, `get_mouseover`, `get_rollover` and `get_last_message`. */
  lemma StringReadSizes()
    ensures GetString("name", 23) == Ok(Request(0x6732F0, Str, 48))
    ensures GetString("mouseover", 128) == Ok(Request(0x66DC60, Str, 258))
    ensures GetString("rollover", 128) == Ok(Request(0x66FC60, Str, 258))
    ensures GetString("last_message", 127) == Ok(Request(0x66D4F2, Str, 256))
  {
  }

  /** A size of 0 behaves as no size at all. */
  lemma ZeroSizeIsDefault(key: string)
    ensures GetValue(key, Some(0)) == GetValue(key, None)
  {
  }

  /** Any string length except -1 gives a non-zero size, so `get_string` never needs `sizeof(str)`. */
  lemma GetStringSucceedsOnStringKeys(key: string, length: int)
    requires key in ReadAddresses && ReadAddresses[key].1 == Str && length != -1
    ensures GetString(key, length).Ok? && GetString(key, length).value.bufferSize == 2 * length + 2
  {
  }

  /** `get_chat_box_state`: `bool(enter and not focus)`, a dialogue hooks enter and none darkens the screen. */
  function GetChatBoxState(enterDialogue: Scalar, focusDialogue: Scalar): (r: bool)
    ensures r <==> enterDialogue.Number? && enterDialogue.n != 0 && focusDialogue in {Number(0), CObject}
  {
    Truthy(enterDialogue) && !Truthy(focusDialogue)
  }

  /** `get_character_loaded` */
  function GetCharacterLoaded(loggedIn: Scalar): (r: bool)
    ensures r <==> loggedIn.Number? && loggedIn.n != 0
  {
    Truthy(loggedIn)
  }

  /** `get_docked`: docked exactly when not in space. */
  function GetDocked(inSpace: Scalar): (r: bool)
    ensures r <==> inSpace in {Number(0), CObject}
  {
    !Truthy(inSpace)
  }

  /**
   * A zero read and a failed read are both falsy: either reports the chat box closed, no
   * character loaded and the ship docked; a darkening dialogue keeps the chat box reading
   * closed whatever hooks enter.
   */
  lemma ZeroReadsAndFocus(enterDialogue: Scalar, focusDialogue: Scalar)
    ensures forall z :: z == Number(0) || z == CObject ==>
      !GetChatBoxState(z, focusDialogue) && !GetCharacterLoaded(z) && GetDocked(z)
    ensures Truthy(focusDialogue) ==> !GetChatBoxState(enterDialogue, focusDialogue)
    ensures enterDialogue.Number? && enterDialogue.n != 0 && focusDialogue.Number? && focusDialogue.n == 0 ==>
      GetChatBoxState(enterDialogue, focusDialogue)
  {
  }
}
