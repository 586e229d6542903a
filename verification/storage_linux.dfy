/**
 * flair/hook/storage/linux.py: the account name read from Wine's `user.reg`, the key
 * names taken from the virtual-key table, and the keymap built from them.
 *
 * Reading the file and splitting it into lines (`read().splitlines()`) is outside the
 * model: the scan takes the lines as given.
 */
module StorageLinux {
  import opened Wrappers
  import opened Text
  import VkLinux
  import Keymap

  /** `REGISTRY_DIR`: the registry key under which Freelancer keeps its settings. */
  const RegistryDir: string := "Software\\Microsoft\\Microsoft Games\\Freelancer\\1.0"

  /** `s.replace('\\', '\\\\')`: every backslash written twice, as Wine writes key paths. */
  function DoubleBackslashes(s: string): (r: string)
    ensures |r| >= |s|
    ensures forall c :: c in r <==> c in s
  {
    if s == [] then []
    else (if s[0] == '\\' then "\\\\" else [s[0]]) + DoubleBackslashes(s[1..])
  }

  /** The section header text that opens Freelancer's key in `user.reg`. */
  const WineRegPath: string := DoubleBackslashes(RegistryDir)

  /** The prefix of the line that holds the account name. */
  const AccountPrefix: string := "\"MPAccountName\"="

  /** `line.split(']')[0][1:]` for a line starting with `[`: the header's text. */
  function HeaderPath(line: string): (r: string)
    requires StartsWith(line, "[")
    ensures ']' !in r
    ensures |r| < |line| && r == line[1..|r| + 1]
    ensures |r| + 1 < |line| ==> line[|r| + 1] == ']'
  {
    var head := UpTo(line, ']');
    assert line[0] == '[' && head == line[..|head|];
    assert |head| >= 1;
    head[1..]
  }

  /** `line.split('=')[1].replace('"', '')` for a line starting with the account prefix. */
  function AccountValue(line: string): string
    requires StartsWith(line, AccountPrefix)
  {
    var fields := SplitOn(line, '=');
    assert line[15] == '=';
    Remove(fields[1], '"')
  }

  /** The value is the text between the first `=` (the prefix's last character) and the next one, unquoted. */
  lemma AccountValueIsSecondField(line: string)
    requires StartsWith(line, AccountPrefix)
    ensures AccountValue(line) == Remove(UpTo(line[|AccountPrefix|..], '='), '"')
  {
    var n := |AccountPrefix| - 1;
    assert line[..n] == AccountPrefix[..n];
    assert '=' !in line[..n];
    assert line == line[..n] + ['='] + line[n + 1..];
    IndexOfAfter(line[..n], '=', line[n + 1..]);
    SplitFirstPiece(line[n + 1..], '=');
  }

  /** What the scan looks at in one line: the header it opens, and the account value it holds. */
  datatype LineInfo = LineInfo(header: Option<string>, account: Option<string>)

  function Info(line: string): (r: LineInfo)
    ensures r.header.Some? <==> StartsWith(line, "[")
    ensures r.account.Some? <==> StartsWith(line, AccountPrefix)
  {
    LineInfo(
      if StartsWith(line, "[") then Some(HeaderPath(line)) else None,
      if StartsWith(line, AccountPrefix) then Some(AccountValue(line)) else None)
  }

  function Infos(lines: seq<string>): (r: seq<LineInfo>)
    ensures |r| == |lines| && forall i :: 0 <= i < |lines| ==> r[i] == Info(lines[i])
  {
    seq(|lines|, i requires 0 <= i < |lines| => Info(lines[i]))
  }

  /**
   * The scan from a given point: `path` is the last header seen, until it equals
   * `target` (`WineRegPath` in the source); from then on it is frozen and the first
   * account line gives the value.
   */
  function Scan(infos: seq<LineInfo>, target: string, path: Option<string>): Option<string>
    decreases |infos|
  {
    if infos == [] then None
    else if path != Some(target) then
      Scan(infos[1..], target, if infos[0].header.Some? then infos[0].header else path)
    else if infos[0].account.Some? then infos[0].account
    else Scan(infos[1..], target, path)
  }

  /** `get_active_account_name`, with `None` for falling off the end of the file. */
  method ActiveAccountName(lines: seq<string>) returns (r: Option<string>)
    ensures r == Scan(Infos(lines), WineRegPath, None)
  {
    r := AccountIn(lines, WineRegPath);
  }

  /** The line loop of `get_active_account_name`, for the section named `target`. */
  method AccountIn(lines: seq<string>, target: string) returns (r: Option<string>)
    ensures r == Scan(Infos(lines), target, None)
  {
    ghost var infos := Infos(lines);
    var path: Option<string> := None;
    var i := 0;
    while i < |lines|
      invariant 0 <= i <= |lines|
      invariant Scan(infos[i..], target, path) == Scan(infos, target, None)
    {
      assert infos[i..][1..] == infos[i + 1..];
      var line := lines[i];
      if path != Some(target) {
        if StartsWith(line, "[") {
          path := Some(HeaderPath(line));
        }
      } else if StartsWith(line, AccountPrefix) {
        return Some(AccountValue(line));
      }
      i := i + 1;
    }
    return None;
  }

  /**
   * Inside the section: the result is the value of the first account line, and None when
   * there is none; later headers do not end the search.
   */
  lemma {:induction false} InsideSection(infos: seq<LineInfo>, target: string)
    ensures Scan(infos, target, Some(target)).None? <==> forall i :: 0 <= i < |infos| ==> infos[i].account.None?
    ensures Scan(infos, target, Some(target)).Some? ==> FirstAccount(infos, Scan(infos, target, Some(target)).value)
    decreases |infos|
  {
    if infos != [] {
      var rest := infos[1..];
      InsideSection(rest, target);
      assert forall i :: 1 <= i < |infos| ==> rest[i - 1] == infos[i];
      if infos[0].account.None? && Scan(infos, target, Some(target)).Some? {
        var k :| FirstAccountAt(rest, k, Scan(rest, target, Some(target)).value);
        assert FirstAccountAt(infos, k + 1, Scan(infos, target, Some(target)).value);
      } else if infos[0].account.Some? {
        assert FirstAccountAt(infos, 0, infos[0].account.value);
      }
    }
  }

  /** Line `i` is the first account line, and it holds `value`. */
  predicate FirstAccountAt(infos: seq<LineInfo>, i: int, value: string) {
    0 <= i < |infos| && infos[i].account == Some(value) &&
    forall j :: 0 <= j < i ==> infos[j].account.None?
  }

  ghost predicate FirstAccount(infos: seq<LineInfo>, value: string) {
    exists i :: FirstAccountAt(infos, i, value)
  }

  /** Before the section: the search starts right after the first line that opens it. */
  lemma {:induction false} SearchStartsAfterHeader(infos: seq<LineInfo>, target: string, path: Option<string>, h: nat)
    requires path != Some(target)
    requires h < |infos| && infos[h].header == Some(target)
    requires forall j :: 0 <= j < h ==> infos[j].header != Some(target)
    ensures Scan(infos, target, path) == Scan(infos[h + 1..], target, Some(target))
    decreases h
  {
    if h > 0 {
      var next := if infos[0].header.Some? then infos[0].header else path;
      assert infos[1..][h - 1] == infos[h] && infos[1..][h..] == infos[h + 1..];
      SearchStartsAfterHeader(infos[1..], target, next, h - 1);
    }
  }

  /** Without a line that opens the section, no account name is found. */
  lemma {:induction false} NoHeaderNoName(infos: seq<LineInfo>, target: string, path: Option<string>)
    requires path != Some(target)
    requires forall j :: 0 <= j < |infos| ==> infos[j].header != Some(target)
    ensures Scan(infos, target, path).None?
    decreases |infos|
  {
    if infos != [] {
      var next := if infos[0].header.Some? then infos[0].header else path;
      assert forall j :: 0 <= j < |infos| - 1 ==> infos[1..][j] == infos[j + 1];
      NoHeaderNoName(infos[1..], target, next);
    }
  }

  /** `name.split("_")[1].lower()` for a table name. */
  function KeyToken(name: string): string
    requires VkLinux.WellFormedName(name)
  {
    assert name[2] == '_';
    Lower(SplitOn(name, '_')[1])
  }

  /** `virtual_key_to_name`: the table name's key token; ValueError (not KeyError) when the code is absent. */
  function VirtualKeyToName(vk: int): (r: Result<string>)
    ensures r.Err? <==> VkLinux.VkName(vk).None?
    ensures r.Err? ==> r.error == ValueError
    ensures r.Ok? ==> VkLinux.WellFormedName(VkLinux.VkName(vk).value) && r.value == KeyToken(VkLinux.VkName(vk).value)
  {
    match VkLinux.VkName(vk)
    case None => Err(ValueError)
    case Some(name) =>
      VkLinux.EveryNameWellFormed(vk);
      Ok(KeyToken(name))
  }

  /** The text before the first `_` of a token followed by nothing or by `_`. */
  lemma UpToToken(token: string, rest: string)
    requires '_' !in token
    requires rest == [] || rest[0] == '_'
    ensures UpTo(token + rest, '_') == token
  {
    if rest == [] {
      assert token + rest == token;
    } else {
      var r1 := rest[1..];
      assert rest == ['_'] + r1;
      assert token + rest == token + ['_'] + r1;
      IndexOfAfter(token, '_', r1);
    }
  }

  /** The second `_` token of `head_token_rest`, when the rest is empty or starts with `_`. */
  lemma SecondToken(name: string, head: string, token: string, rest: string)
    requires name == head + ['_'] + token + rest
    requires '_' !in head && '_' !in token
    requires rest == [] || rest[0] == '_'
    ensures |SplitOn(name, '_')| >= 2
    ensures SplitOn(name, '_')[1] == token
  {
    var tail := token + rest;
    assert name == head + ['_'] + tail;
    IndexOfAfter(head, '_', tail);
    assert name[|head| + 1..] == tail;
    assert SplitOn(name, '_') == [name[..|head|]] + SplitOn(tail, '_');
    SplitFirstPiece(tail, '_');
    UpToToken(token, rest);
  }

  /** 0x41 is named 'a'. */
  lemma LetterKeyName()
    ensures VirtualKeyToName(0x41) == Ok("a")
  {
    VkLinux.NamedByOwnCharacter(0x41);
    var name := VkLinux.VkName(0x41).value;
    assert name == "VK" + ['_'] + "A" + "";
    SecondToken(name, "VK", "A", "");
    assert Lower("A") == "a";
  }

  /** 0x0D is named 'return'. */
  lemma ReturnKeyName(code: int)
    requires code == 0x0D
    ensures VirtualKeyToName(code) == Ok("return")
  {
    assert VkLinux.VkName(code) == Some("VK_RETURN");
    var name := VkLinux.VkName(code).value;
    ReturnToken(name);
    LowerReturn(SplitOn(name, '_')[1]);
  }

  lemma ReturnToken(name: string)
    requires name == "VK_RETURN"
    ensures SplitOn(name, '_')[1] == "RETURN"
  {
    assert name == "VK" + ['_'] + "RETURN" + [];
    SecondToken(name, "VK", "RETURN", []);
  }

  lemma LowerReturn(token: string)
    requires token == "RETURN"
    ensures Lower(token) == "return"
  {
    var r := Lower(token);
    assert r[0] == 'r' && r[1] == 'e' && r[2] == 't' && r[3] == 'u' && r[4] == 'r' && r[5] == 'n';
  }

  /** Every VK_OEM_* name gives 'oem'. */
  lemma OemKeyToken(name: string)
    requires VkLinux.WellFormedName(name) && StartsWith(name, "VK_OEM_")
    ensures KeyToken(name) == "oem"
  {
    var rest := name[6..];
    assert name == name[..6] + rest;
    assert name[..6] == "VK" + ['_'] + "OEM" by {
      assert name[..7] == "VK_OEM_";
    }
    SecondToken(name, "VK", "OEM", rest);
    assert Lower("OEM") == "oem";
  }

  /** `get_user_keymap` with this platform's key names. */
  method GetUserKeymap(sections: seq<Keymap.Section>) returns (r: Result<map<string, string>>)
    ensures r == Keymap.KeymapOf(sections, VirtualKeyToName)
  {
    r := Keymap.GetUserKeymap(sections, VirtualKeyToName);
  }

  /** An entry whose code is not in the table is skipped. */
  lemma UnknownCodeSkipped(code: nat, modifiers: string)
    requires VkLinux.VkName(code).None?
    ensures Keymap.Hotkey(Decimal(code), VirtualKeyToName).None?
    ensures Keymap.Hotkey(Decimal(code) + "," + modifiers, VirtualKeyToName).None?
  {
    Keymap.RejectedCodeSkipped(code, modifiers, VirtualKeyToName);
  }
}
