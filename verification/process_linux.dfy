/**
 * The Linux memory reader (flair/hook/process_linux.py): turning the bytes of a
 * `process_vm_readv` read into a string, the `None` and '' results of a failed
 * read, and the flags derived from raw values.
 */
module ProcessLinux {
  import opened Wrappers
  import ProcessPackage

  newtype byte = b: int | 0 <= b < 256

  /** One UTF-16 code unit as two bytes, low byte first (the native order on x86). */
  datatype Unit = Unit(lo: byte, hi: byte) {
    function Value(): int { lo as int + 256 * hi as int }
    predicate IsZero() { lo == 0 && hi == 0 }
    /** FF FE or FE FF: a byte-order mark in either byte order. */
    predicate IsByteOrderMark() { (lo == 0xFF && hi == 0xFE) || (lo == 0xFE && hi == 0xFF) }
  }

  /** `_c_char_array_to_utf16_array`: consecutive pairs of bytes, in order. */
  function Utf16Units(buf: seq<byte>): (units: seq<Unit>)
    requires |buf| % 2 == 0
    ensures |units| == |buf| / 2
    ensures forall k :: 0 <= k < |units| ==> units[k] == Unit(buf[2 * k], buf[2 * k + 1])
  {
    seq(|buf| / 2, k requires 0 <= k < |buf| / 2 => Unit(buf[2 * k], buf[2 * k + 1]))
  }

  /** What `unit.decode('UTF-16')` does with a lone unit. */
  datatype UnitDecode = Decoded(text: string) | Undecodable

  /**
   * Python's 'UTF-16' codec reads a leading byte-order mark in either order and
   * drops it, so FF FE and FE FF decode to ''; a lone surrogate raises
   * UnicodeDecodeError; any other unit is one character.
   */
  function DecodeUnit(u: Unit): (r: UnitDecode)
    ensures r.Decoded? ==> |r.text| <= 1
    ensures r.Undecodable? <==> 0xD800 <= u.Value() <= 0xDFFF
    ensures u.IsByteOrderMark() ==> r == Decoded("")
    ensures !u.IsByteOrderMark() && !(0xD800 <= u.Value() <= 0xDFFF) ==> r == Decoded([u.Value() as char])
  {
    if u.IsByteOrderMark() then Decoded("")
    else if 0xD800 <= u.Value() <= 0xDFFF then Undecodable
    else Decoded([u.Value() as char])
  }

  predicate Stops(u: Unit) {
    u.IsZero() || DecodeUnit(u).Undecodable?
  }

  /** The index of the first unit that ends the string (a zero unit or an undecodable one), or |units|. */
  function StopIndex(units: seq<Unit>): (k: nat)
    ensures k <= |units|
    ensures forall i :: 0 <= i < k ==> !Stops(units[i])
    ensures k < |units| ==> Stops(units[k])
  {
    if units == [] || Stops(units[0]) then 0 else 1 + StopIndex(units[1..])
  }

  /** The concatenated decodes of units none of which stops the string. */
  function DecodeAll(units: seq<Unit>): string
    requires forall i :: 0 <= i < |units| ==> !Stops(units[i])
  {
    if units == [] then ""
    else
      assert !Stops(units[0]);
      DecodeUnit(units[0]).text + DecodeAll(units[1..])
  }

  /** The string `_c_char_array_to_str` returns for these units. */
  function UnitsToStr(units: seq<Unit>): string {
    DecodeAll(units[..StopIndex(units)])
  }

  /** `_c_char_array_to_str`: decode unit by unit, stopping at a zero unit or at the first decoding error. */
  method CharArrayToStr(buf: seq<byte>) returns (s: string)
    requires |buf| % 2 == 0
    ensures s == UnitsToStr(Utf16Units(buf))
  {
    var units := Utf16Units(buf);
    var result: seq<string> := [];
    ghost var text := "";
    var i := 0;
    while i < |units|
      invariant i <= StopIndex(units)
      invariant text == DecodeAll(units[..i])
      invariant Joined(result) == text
      decreases |units| - i
    {
      var u := units[i];
      if u.IsZero() {
        break;
      }
      match DecodeUnit(u)
      case Undecodable =>
        break;
      case Decoded(t) =>
        DecodeAllAppend(units[..i], u);
        assert units[..i + 1] == units[..i] + [u];
        result := result + [t];
        text := text + t;
        i := i + 1;
    }
    s := Join(result);
    assert units[..StopIndex(units)] == units[..i];
  }

  function Joined(parts: seq<string>): string {
    if parts == [] then "" else Joined(parts[..|parts| - 1]) + parts[|parts| - 1]
  }

  /** `''.join(result)` */
  method Join(parts: seq<string>) returns (s: string)
    ensures s == Joined(parts)
  {
    s := "";
    var i := 0;
    while i < |parts|
      invariant i <= |parts|
      invariant s == Joined(parts[..i])
    {
      assert parts[..i + 1][..i] == parts[..i];
      s := s + parts[i];
      i := i + 1;
    }
    assert parts[..|parts|] == parts;
  }

  lemma {:induction false} DecodeAllAppend(units: seq<Unit>, u: Unit)
    requires forall i :: 0 <= i < |units| ==> !Stops(units[i])
    requires !Stops(u)
    ensures DecodeAll(units + [u]) == DecodeAll(units) + DecodeUnit(u).text
  {
    if units == [] {
      assert [u][1..] == [];
    } else {
      assert (units + [u])[1..] == units[1..] + [u];
      DecodeAllAppend(units[1..], u);
    }
  }

  lemma {:induction false} DecodeAllLength(units: seq<Unit>)
    requires forall i :: 0 <= i < |units| ==> !Stops(units[i])
    ensures |DecodeAll(units)| <= |units|
  {
    if units != [] {
      DecodeAllLength(units[1..]);
    }
  }

  /** At most one character per unit before the terminator. */
  lemma AtMostOneCharPerUnit(units: seq<Unit>)
    ensures |UnitsToStr(units)| <= StopIndex(units) <= |units|
  {
    DecodeAllLength(units[..StopIndex(units)]);
  }

  lemma {:induction false} StopIndexOfPrefixStop(units: seq<Unit>, stop: Unit, rest: seq<Unit>)
    requires Stops(stop)
    ensures StopIndex(units + [stop] + rest) == StopIndex(units)
    ensures (units + [stop] + rest)[..StopIndex(units)] == units[..StopIndex(units)]
  {
    if units == [] {
    } else {
      assert (units + [stop] + rest)[0] == units[0];
      assert (units + [stop] + rest)[1..] == units[1..] + [stop] + rest;
      StopIndexOfPrefixStop(units[1..], stop, rest);
    }
  }

  /** A zero unit ends the string: nothing after it reaches the result. */
  lemma ZeroUnitTerminates(units: seq<Unit>, rest: seq<Unit>)
    ensures UnitsToStr(units + [Unit(0, 0)] + rest) == UnitsToStr(units)
  {
    StopIndexOfPrefixStop(units, Unit(0, 0), rest);
  }

  /** A surrogate unit raises UnicodeDecodeError, which also ends the string. */
  lemma SurrogateTerminates(units: seq<Unit>, surrogate: Unit, rest: seq<Unit>)
    requires 0xD800 <= surrogate.Value() <= 0xDFFF
    ensures UnitsToStr(units + [surrogate] + rest) == UnitsToStr(units)
  {
    StopIndexOfPrefixStop(units, surrogate, rest);
  }

  /** A character of the Basic Multilingual Plane as one little-endian UTF-16 unit. */
  function EncodeChar(c: char): Unit
    requires c as int < 0x1_0000
    ensures EncodeChar(c).Value() == c as int
  {
    var n := c as int;
    assert n == n % 256 + 256 * (n / 256);
    Unit((n % 256) as byte, (n / 256) as byte)
  }

  /** Characters that survive `_c_char_array_to_str`: BMP, not NUL and not read as a byte-order mark. */
  predicate Encodable(c: char) {
    0 < c as int < 0x1_0000 && c as int != 0xFEFF && c as int != 0xFFFE
  }

  function EncodeText(text: string): (units: seq<Unit>)
    requires forall k :: 0 <= k < |text| ==> Encodable(text[k])
    ensures |units| == |text|
  {
    if text == [] then []
    else
      assert Encodable(text[0]);
      [EncodeChar(text[0])] + EncodeText(text[1..])
  }

  lemma {:induction false} DecodeEncoded(text: string)
    requires forall k :: 0 <= k < |text| ==> Encodable(text[k])
    ensures StopIndex(EncodeText(text)) == |text|
    ensures DecodeAll(EncodeText(text)) == text
  {
    if text != [] {
      assert Encodable(text[0]);
      var u := EncodeChar(text[0]);
      assert !u.IsZero() && !u.IsByteOrderMark();
      assert DecodeUnit(u) == Decoded([text[0]]);
      DecodeEncoded(text[1..]);
      assert EncodeText(text)[1..] == EncodeText(text[1..]);
    }
  }

  /**
   * Text of the Basic Multilingual Plane written as UTF-16LE with a zero terminator
   * reads back as itself, whatever follows the terminator.
   */
  lemma BmpRoundTrip(text: string, rest: seq<Unit>)
    requires forall k :: 0 <= k < |text| ==> Encodable(text[k])
    ensures UnitsToStr(EncodeText(text) + [Unit(0, 0)] + rest) == text
  {
    ZeroUnitTerminates(EncodeText(text), rest);
    DecodeEncoded(text);
    assert EncodeText(text)[..|text|] == EncodeText(text);
  }

  /** `read_memory` for `str`: a buffer of `bufferSize` units, '' when `process_vm_readv` fails. */
  method ReadString(bufferSize: nat, read: Option<seq<byte>>) returns (s: string)
    requires read.Some? ==> |read.value| == 2 * bufferSize
    ensures read.None? ==> s == ""
    ensures read.Some? ==> s == UnitsToStr(Utf16Units(read.value))
  {
    match read
    case None => s := "";
    case Some(buf) => s := CharArrayToStr(buf);
  }

  /** How Python tests a scalar this reader returns: `None` (a failed read) and 0 are falsy. */
  predicate Truthy(v: Option<int>) {
    v.Some? && v.value != 0
  }

  /** `bool(enter and not focus)` over reads that may have failed. */
  function GetChatBoxState(enterDialogue: Option<int>, focusDialogue: Option<int>): (r: bool)
    ensures r <==> enterDialogue.Some? && enterDialogue.value != 0 && focusDialogue in {Some(0), None}
  {
    Truthy(enterDialogue) && !Truthy(focusDialogue)
  }

  function GetCharacterLoaded(loggedIn: Option<int>): (r: bool)
    ensures r <==> loggedIn.Some? && loggedIn.value != 0
  {
    Truthy(loggedIn)
  }

  function GetDocked(inSpace: Option<int>): (r: bool)
    ensures r <==> inSpace in {Some(0), None}
  {
    !Truthy(inSpace)
  }

  /** The package reader's result for the same read: the integer, or its failed-read object. */
  function PackageRead(v: Option<int>): ProcessPackage.Scalar {
    match v
    case Some(n) => ProcessPackage.Number(n)
    case None => ProcessPackage.CObject
  }

  /**
   * The Linux flags are those of the package reader: a failed read (`None`) is falsy,
   * as the package's failed-read object is, so a failed `in_space` read reports docked.
   */
  lemma FlagsAgreeWithPackage(enter: Option<int>, focus: Option<int>, loggedIn: Option<int>, inSpace: Option<int>)
    ensures GetChatBoxState(enter, focus)
      == ProcessPackage.GetChatBoxState(PackageRead(enter), PackageRead(focus))
    ensures GetCharacterLoaded(loggedIn) == ProcessPackage.GetCharacterLoaded(PackageRead(loggedIn))
    ensures GetDocked(inSpace) == ProcessPackage.GetDocked(PackageRead(inSpace))
    ensures GetDocked(None) && !GetCharacterLoaded(None) && !GetChatBoxState(None, focus)
  {
  }

  /** `get_string` asks for `(length * 2) + 2` units, so `read_memory` reads twice as many bytes. */
  lemma StringReadBytes(length: int)
    requires length >= 0
    ensures ProcessPackage.GetString("name", length).Ok?
    ensures 2 * ProcessPackage.GetString("name", length).value.bufferSize == 4 * length + 4
  {
  }
}
