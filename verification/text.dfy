/**
 * The handful of Python `str` operations the modelled code relies on:
 * `strip`, `split()` on whitespace, `split(sep)`, `partition`, `startswith`,
 * `replace(c, '')` and `lower`.
 */
module Text {
  import opened Wrappers

  /** The characters Python's `str.isspace` accepts (used by `strip()` and `split()`). */
  predicate IsSpace(c: char) {
    var n := c as int;
    n in {0x09, 0x0A, 0x0B, 0x0C, 0x0D, 0x1C, 0x1D, 0x1E, 0x1F, 0x20, 0x85, 0xA0,
          0x1680, 0x2028, 0x2029, 0x202F, 0x205F, 0x3000}
    || 0x2000 <= n <= 0x200A
  }

  predicate StartsWith(s: string, prefix: string) {
    |prefix| <= |s| && s[..|prefix|] == prefix
  }

  /** `s.lstrip()` */
  function LStrip(s: string): (r: string)
    ensures |r| <= |s| && r == s[|s| - |r|..]
    ensures r == [] || !IsSpace(r[0])
    ensures forall k :: 0 <= k < |s| - |r| ==> IsSpace(s[k])
  {
    if s != [] && IsSpace(s[0]) then LStrip(s[1..]) else s
  }

  /** `s.rstrip()` */
  function RStrip(s: string): (r: string)
    ensures |r| <= |s| && r == s[..|r|]
    ensures r == [] || !IsSpace(r[|r| - 1])
    ensures forall k :: |r| <= k < |s| ==> IsSpace(s[k])
  {
    if s != [] && IsSpace(s[|s| - 1]) then RStrip(s[..|s| - 1]) else s
  }

  /** `s.strip()` */
  function Strip(s: string): (r: string)
    ensures r == [] || (!IsSpace(r[0]) && !IsSpace(r[|r| - 1]))
  {
    RStrip(LStrip(s))
  }

  predicate OccursAt(s: string, pattern: string, k: nat) {
    k + |pattern| <= |s| && s[k..k + |pattern|] == pattern
  }

  /** `s.find(pattern)`, with `None` for -1. */
  function Find(s: string, pattern: string, from: nat := 0): (r: Option<nat>)
    requires from <= |s|
    ensures r.Some? ==> from <= r.value && OccursAt(s, pattern, r.value)
    ensures r.Some? ==> forall k :: from <= k < r.value ==> !OccursAt(s, pattern, k)
    ensures r.None? ==> forall k :: from <= k <= |s| ==> !OccursAt(s, pattern, k)
    decreases |s| - from
  {
    if OccursAt(s, pattern, from) then Some(from)
    else if from == |s| then None
    else Find(s, pattern, from + 1)
  }

  /** `s.partition(sep)`: the text before the first `sep`, the separator (or ''), the rest. */
  function Partition(s: string, sep: string): (r: (string, string, string))
    requires sep != []
    ensures r.0 + r.1 + r.2 == s
    ensures r.1 == sep || (r.1 == [] && r.0 == s && r.2 == [])
  {
    match Find(s, sep)
    case Some(i) => (s[..i], sep, s[i + |sep|..])
    case None => (s, [], [])
  }

  /** A string with no whitespace in it. */
  predicate NoSpace(w: string) {
    forall c :: c in w ==> !IsSpace(c)
  }

  /** `split()` with no argument: the maximal runs of non-whitespace characters, in order. */
  function Words(s: string): (r: seq<string>)
    ensures forall w :: w in r ==> w != [] && NoSpace(w)
    decreases |s|
  {
    var t := LStrip(s);
    if t == [] then []
    else
      var w := Word(t);
      [w] + Words(t[|w|..])
  }

  /** The longest prefix of `s` without whitespace. */
  function Word(s: string): (r: string)
    ensures |r| <= |s| && r == s[..|r|]
    ensures NoSpace(r)
    ensures |r| < |s| ==> IsSpace(s[|r|])
    ensures s != [] && !IsSpace(s[0]) ==> r != []
  {
    if s == [] || IsSpace(s[0]) then [] else [s[0]] + Word(s[1..])
  }

  /** The first index of `c` in `s`. */
  function IndexOf(s: string, c: char): (r: Option<nat>)
    ensures r.Some? ==> r.value < |s| && s[r.value] == c && c !in s[..r.value]
    ensures r.None? ==> c !in s
  {
    if s == [] then None
    else if s[0] == c then Some(0)
    else match IndexOf(s[1..], c)
      case Some(i) => Some(i + 1)
      case None => None
  }

  /** `s.split(sep)` for a one-character separator: one piece more than there are separators. */
  function SplitOn(s: string, sep: char): (r: seq<string>)
    ensures |r| >= 1
    ensures sep !in s <==> |r| == 1
    decreases |s|
  {
    match IndexOf(s, sep)
    case None => [s]
    case Some(i) => [s[..i]] + SplitOn(s[i + 1..], sep)
  }

  lemma SplitAround(s: string, i: nat)
    requires i < |s|
    ensures s == s[..i] + [s[i]] + s[i + 1..]
  {
  }

  /** `split` then `join` gives the text back, and no piece holds the separator. */
  lemma {:induction false} JoinSplitOn(s: string, sep: char)
    ensures forall i :: 0 <= i < |SplitOn(s, sep)| ==> sep !in SplitOn(s, sep)[i]
    ensures Join(SplitOn(s, sep), sep) == s
    decreases |s|
  {
    var r := SplitOn(s, sep);
    match IndexOf(s, sep)
    case None =>
      assert r == [s];
    case Some(i) =>
      var rest := s[i + 1..];
      var tail := SplitOn(rest, sep);
      JoinSplitOn(rest, sep);
      assert r == [s[..i]] + tail;
      assert r[0] == s[..i] && r[1..] == tail;
      assert Join(r, sep) == s[..i] + [sep] + Join(tail, sep);
      SplitAround(s, i);
      forall k | 0 <= k < |r|
        ensures sep !in r[k]
      {
        if k > 0 {
          assert r[k] == tail[k - 1];
        }
      }
  }

  /** `s.split(c)[0]`: the text before the first `c`, or all of `s`. */
  function UpTo(s: string, c: char): (r: string)
    ensures |r| <= |s| && r == s[..|r|] && c !in r
    ensures |r| < |s| ==> s[|r|] == c
  {
    match IndexOf(s, c)
    case Some(i) => s[..i]
    case None => s
  }

  lemma SplitFirstPiece(s: string, c: char)
    ensures SplitOn(s, c)[0] == UpTo(s, c)
  {
  }

  lemma {:induction false} IndexOfAfter(a: string, c: char, b: string)
    requires c !in a
    ensures IndexOf(a + [c] + b, c) == Some(|a|)
  {
    if a != [] {
      assert (a + [c] + b)[1..] == a[1..] + [c] + b;
      IndexOfAfter(a[1..], c, b);
    }
  }

  /** `sep.join` then `split(sep)` gives the pieces back, when none contains `sep`. */
  lemma {:induction false} SplitOnJoin(pieces: seq<string>, sep: char)
    requires pieces != [] && forall i :: 0 <= i < |pieces| ==> sep !in pieces[i]
    ensures SplitOn(Join(pieces, sep), sep) == pieces
    decreases |pieces|
  {
    if |pieces| > 1 {
      var head := pieces[0];
      var more := pieces[1..];
      var rest := Join(more, sep);
      var s := Join(pieces, sep);
      assert s == head + [sep] + rest;
      IndexOfAfter(head, sep, rest);
      assert s[..|head|] == head && s[|head| + 1..] == rest;
      SplitOnJoin(more, sep);
      assert SplitOn(s, sep) == [head] + SplitOn(rest, sep);
      assert pieces == [head] + more;
    } else {
      assert Join(pieces, sep) == pieces[0];
      assert IndexOf(pieces[0], sep).None?;
    }
  }

  /** `sep.join(pieces)` */
  function Join(pieces: seq<string>, sep: char): string {
    if pieces == [] then []
    else if |pieces| == 1 then pieces[0]
    else pieces[0] + [sep] + Join(pieces[1..], sep)
  }

  /** `s.replace(c, '')` */
  function Remove(s: string, c: char): (r: string)
    ensures c !in r
    ensures forall x :: x in r <==> x in s && x != c
  {
    if s == [] then [] else (if s[0] == c then [] else [s[0]]) + Remove(s[1..], c)
  }

  function LowerChar(c: char): char {
    if 'A' <= c <= 'Z' then (c as int + 32) as char else c
  }

  /** `s.lower()` on the ASCII letters. */
  function Lower(s: string): (r: string)
    ensures |r| == |s| && forall i :: 0 <= i < |s| ==> r[i] == LowerChar(s[i])
  {
    seq(|s|, i requires 0 <= i < |s| => LowerChar(s[i]))
  }

  predicate IsDigit(c: char) {
    '0' <= c <= '9'
  }

  /** `str(n)` for a natural number: its decimal digits, without leading zeros. */
  function Decimal(n: nat): (r: string)
    ensures r != [] && forall i :: 0 <= i < |r| ==> IsDigit(r[i])
    ensures r[0] == '0' ==> n == 0
  {
    if n < 10 then [(n + '0' as int) as char] else Decimal(n / 10) + [(n % 10 + '0' as int) as char]
  }

  /** The digit runs `int()` accepts: digits, with single underscores only between two digits. */
  predicate DigitGroups(s: string) {
    s != [] && IsDigit(s[0]) &&
    forall i :: 0 <= i < |s| ==> IsDigit(s[i]) || (s[i] == '_' && i + 1 < |s| && IsDigit(s[i + 1]))
  }

  /** The number a digit run denotes, underscores ignored. */
  function DigitsValue(s: string): (r: nat) {
    if s == [] then 0
    else if s[|s| - 1] == '_' then DigitsValue(s[..|s| - 1])
    else DigitsValue(s[..|s| - 1]) * 10 + (if IsDigit(s[|s| - 1]) then s[|s| - 1] as int - '0' as int else 0)
  }

  /** `int(s)` in base 10, with `None` where it raises ValueError: surrounding whitespace, one sign, digit groups. */
  function ParseInt(s: string): Option<int> {
    var t := Strip(s);
    if t != [] && (t[0] == '+' || t[0] == '-') then
      var body := t[1..];
      if DigitGroups(body) then
        assert IsDigit(t[1]);
        var v: int := DigitsValue(body);
        Some(if t[0] == '-' then -v else v)
      else None
    else if DigitGroups(t) then
      assert IsDigit(t[0]);
      Some(DigitsValue(t))
    else None
  }

  lemma {:induction false} DecimalValue(n: nat)
    ensures DigitGroups(Decimal(n)) && DigitsValue(Decimal(n)) == n
  {
    if n >= 10 {
      DecimalValue(n / 10);
      var d := Decimal(n / 10);
      assert Decimal(n) == d + [(n % 10 + '0' as int) as char];
      assert Decimal(n)[..|Decimal(n)| - 1] == d;
    }
  }

  lemma StripNoSpace(s: string)
    requires forall i :: 0 <= i < |s| ==> !IsSpace(s[i])
    ensures Strip(s) == s
  {
  }

  /** `int(str(n)) == n`: parsing undoes printing, for every natural number. */
  lemma ParseIntOfDecimal(n: nat)
    ensures ParseInt(Decimal(n)) == Some(n)
  {
    var t := Decimal(n);
    DecimalValue(n);
    StripNoSpace(t);
    assert Strip(t) == t;
    assert !(t[0] == '+' || t[0] == '-');
  }
}
