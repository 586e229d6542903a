/**
 * The string decode of the Windows memory reader (flair/hook/process.py):
 * `''.join(map(chr, raw[:raw.index(b'\0\0'):2]))`, and what `read_memory`
 * returns when `ReadProcessMemory` fails. The address table,
 * buffer sizes and flags of this file are the same as in ProcessPackage.
 */
module ProcessWin32 {
  import opened Wrappers
  import ProcessLinux
  import ProcessPackage

  type byte = ProcessLinux.byte

  predicate ZeroPairAt(raw: seq<byte>, i: nat) {
    i + 1 < |raw| && raw[i] == 0 && raw[i + 1] == 0
  }

  /** `raw.index(b'\0\0')`: the first offset, odd or even, holding two zero bytes. */
  function IndexOfZeroPair(raw: seq<byte>, from: nat := 0): (r: Option<nat>)
    requires from <= |raw|
    ensures r.Some? ==> from <= r.value && ZeroPairAt(raw, r.value)
    ensures r.Some? ==> forall i :: from <= i < r.value ==> !ZeroPairAt(raw, i)
    ensures r.None? ==> forall i :: from <= i < |raw| ==> !ZeroPairAt(raw, i)
    decreases |raw| - from
  {
    if from + 1 >= |raw| then None
    else if ZeroPairAt(raw, from) then Some(from)
    else IndexOfZeroPair(raw, from + 1)
  }

  /** The string decode: the bytes at even offsets before the first zero pair, each through `chr`. */
  function DecodeLowBytes(raw: seq<byte>): (r: Result<string>)
    ensures r.Err? <==> IndexOfZeroPair(raw).None?
    ensures r.Err? ==> r.error == ValueError
  {
    match IndexOfZeroPair(raw)
    case None => Err(ValueError)
    case Some(i) => Ok(seq((i + 1) / 2, k requires 0 <= k < (i + 1) / 2 => raw[2 * k] as int as char))
  }

  /** `read_memory(..., str, ...)`: '' when the read fails, otherwise the decode (which may raise). */
  function ReadString(read: Option<seq<byte>>): (r: Result<string>)
    ensures read.None? ==> r == Ok("")
  {
    match read
    case None => Ok("")
    case Some(raw) => DecodeLowBytes(raw)
  }

  /**
   * `read_memory` for an integer type: the value read, or, when the read fails, the
   * `datatype()` object itself, which is falsy and equal to no value.
   */
  function ReadValue(read: Option<int>): (v: ProcessPackage.Scalar)
    ensures read.None? ==> !ProcessPackage.Truthy(v) && forall w :: !ProcessPackage.PyEq(v, w)
    ensures read.Some? ==> ProcessPackage.PyEq(v, ProcessPackage.Number(read.value))
  {
    match read
    case None => ProcessPackage.CObject
    case Some(n) => ProcessPackage.Number(n)
  }

  /**
   * The decoded string keeps the low byte of each unit: it has ceil(i/2)
   * characters, all below 256, each the byte at an even offset before the
   * first zero pair at offset i.
   */
  lemma DecodeShape(raw: seq<byte>)
    requires IndexOfZeroPair(raw).Some?
    ensures var i := IndexOfZeroPair(raw).value;
      && |DecodeLowBytes(raw).value| == (i + 1) / 2
      && forall k :: 0 <= k < (i + 1) / 2 ==>
           2 * k < i && DecodeLowBytes(raw).value[k] as int == raw[2 * k] as int < 256
  {
  }

  /**
   * A zero pair at an odd offset counts too: for the units U+0041 U+0100 and a
   * terminator the decode stops after the first character.
   */
  lemma OddOffsetZeroPairTruncates()
    ensures DecodeLowBytes([0x41, 0x00, 0x00, 0x01, 0x00, 0x00]) == Ok("A")
  {
    var raw: seq<byte> := [0x41, 0x00, 0x00, 0x01, 0x00, 0x00];
    assert !ZeroPairAt(raw, 0) && ZeroPairAt(raw, 1);
    assert IndexOfZeroPair(raw, 1) == Some(1);
    assert IndexOfZeroPair(raw) == Some(1);
    var s := DecodeLowBytes(raw).value;
    assert |s| == 1 && s[0] == 0x41 as char;
    assert s == "A";
  }

  /**
   * For Latin-1 text followed by a zero unit, the decode gives the text back.
   * The first zero pair is the last character's high byte with the
   * terminator's low byte, at the odd offset 2n-1; the step of 2 still keeps
   * all n characters.
   */
  lemma {:induction false} Latin1RoundTrip(text: seq<byte>, rest: seq<byte>)
    requires forall k :: 0 <= k < |text| ==> text[k] != 0
    ensures DecodeLowBytes(Widen(text) + [0, 0] + rest)
      == Ok(seq(|text|, k requires 0 <= k < |text| => text[k] as int as char))
  {
    var raw := Widen(text) + [0, 0] + rest;
    var n := |text|;
    WidenShape(text);
    assert forall j :: 0 <= j < 2 * n ==> raw[j] == Widen(text)[j];
    assert raw[2 * n] == 0 && raw[2 * n + 1] == 0;
    var stop := if n == 0 then 0 else 2 * n - 1;
    if n > 0 {
      assert raw[2 * n - 1] == Widen(text)[2 * (n - 1) + 1] == 0;
    }
    assert ZeroPairAt(raw, stop);
    forall i | 0 <= i < stop
      ensures !ZeroPairAt(raw, i)
    {
      if i % 2 == 0 {
        assert raw[i] == text[i / 2];
      } else {
        assert raw[i + 1] == Widen(text)[2 * ((i + 1) / 2)] == text[(i + 1) / 2];
      }
    }
    NoEarlierPair(raw, stop, 0);
    var s := DecodeLowBytes(raw).value;
    assert |s| == n;
    forall k | 0 <= k < n
      ensures s[k] == text[k] as int as char
    {
      assert raw[2 * k] == text[k];
    }
    assert s == seq(|text|, k requires 0 <= k < |text| => text[k] as int as char);
  }

  lemma {:induction false} NoEarlierPair(raw: seq<byte>, stop: nat, from: nat)
    requires from <= stop && ZeroPairAt(raw, stop)
    requires forall i :: from <= i < stop ==> !ZeroPairAt(raw, i)
    ensures IndexOfZeroPair(raw, from) == Some(stop)
    decreases stop - from
  {
    if from < stop {
      NoEarlierPair(raw, stop, from + 1);
    }
  }

  /** Each byte followed by a zero high byte: the UTF-16LE form of Latin-1 text. */
  function Widen(text: seq<byte>): seq<byte> {
    if text == [] then [] else [text[0], 0] + Widen(text[1..])
  }

  lemma {:induction false} WidenShape(text: seq<byte>)
    ensures |Widen(text)| == 2 * |text|
    ensures forall k :: 0 <= k < |text| ==> Widen(text)[2 * k] == text[k] && Widen(text)[2 * k + 1] == 0
  {
    if text != [] {
      WidenShape(text[1..]);
      var w := Widen(text);
      assert w == [text[0], 0] + Widen(text[1..]);
      forall k | 0 <= k < |text|
        ensures w[2 * k] == text[k] && w[2 * k + 1] == 0
      {
        if k > 0 {
          assert w[2 * k] == Widen(text[1..])[2 * (k - 1)];
          assert w[2 * k + 1] == Widen(text[1..])[2 * (k - 1) + 1];
        }
      }
    }
  }
}
