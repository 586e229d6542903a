/**
 * The `get_user_keymap` loop, written out identically in flair/hook/storage/__init__.py,
 * flair/hook/storage/linux.py, flair/hook/storage/win32.py and flair/hook/storage.py.
 * It is modelled once here, parameterised by the platform's `virtual_key_to_name`
 * (an `Err` result stands for the ValueError that the loop catches).
 *
 * Each `[keycmd]` section of UserKeyMap.ini is a map from option name to the list of
 * its values; the loop reads the first `nickname` and the first `key` of each.
 */
module Keymap {
  import opened Wrappers
  import opened Text

  /** One `[keycmd]` section: option name to its values, in file order. */
  type Section = map<string, seq<string>>

  /** `keycmd[option][0]`: KeyError for a missing option, IndexError for an empty list. */
  function First(section: Section, option: string): (r: Result<string>)
    ensures r.Ok? <==> option in section && section[option] != []
    ensures r.Ok? ==> r.value == section[option][0]
    ensures r.Err? ==> r.error == (if option in section then IndexError else KeyError)
  {
    if option !in section then Err(KeyError)
    else if section[option] == [] then Err(IndexError)
    else Ok(section[option][0])
  }

  /** `name + '+' + modifier[0] if modifier else name` */
  function Format(name: string, modifiers: seq<string>): (r: string)
    ensures modifiers == [] ==> r == name
    ensures modifiers != [] ==> r == name + "+" + modifiers[0]
  {
    if modifiers == [] then name else name + "+" + modifiers[0]
  }

  /**
   * The hotkey a key value gives: `vk, *modifier = key.split(',')`, then the name of
   * `int(vk)`; `None` where the loop `continue`s.
   */
  function Hotkey(key: string, keyName: int -> Result<string>): Option<string> {
    var fields := SplitOn(key, ',');
    match ParseInt(fields[0])
    case None => None
    case Some(code) =>
      match keyName(code)
      case Err(_) => None
      case Ok(name) => Some(Format(name, fields[1..]))
  }

  /** What one section contributes: an exception, a skip (`None`), or a nickname and its hotkey. */
  function Entry(section: Section, keyName: int -> Result<string>): Result<Option<(string, string)>> {
    match First(section, "nickname")
    case Err(e) => Err(e)
    case Ok(nickname) =>
      match First(section, "key")
      case Err(e) => Err(e)
      case Ok(key) =>
        match Hotkey(key, keyName)
        case None => Ok(None)
        case Some(hotkey) => Ok(Some((nickname, hotkey)))
  }

  /** What the loop does with one section. */
  type Outcome = Result<Option<(string, string)>>

  /** One iteration: an exception propagates, a skip leaves the dict, a kept entry is stored. */
  function Add(acc: Result<map<string, string>>, outcome: Outcome): Result<map<string, string>> {
    match acc
    case Err(e) => Err(e)
    case Ok(m) =>
      match outcome
      case Err(e) => Err(e)
      case Ok(None) => Ok(m)
      case Ok(Some(pair)) => Ok(m[pair.0 := pair.1])
  }

  /** The dict built from the given outcomes, in order, or the first exception among them. */
  function Collect(outcomes: seq<Outcome>): Result<map<string, string>>
    decreases |outcomes|
  {
    if outcomes == [] then Ok(map[])
    else Add(Collect(outcomes[..|outcomes| - 1]), outcomes[|outcomes| - 1])
  }

  function Outcomes(sections: seq<Section>, keyName: int -> Result<string>): (r: seq<Outcome>)
    ensures |r| == |sections| && forall i :: 0 <= i < |sections| ==> r[i] == Entry(sections[i], keyName)
  {
    seq(|sections|, i requires 0 <= i < |sections| => Entry(sections[i], keyName))
  }

  /** The dict `get_user_keymap` returns for the given sections, or the exception it raises. */
  function KeymapOf(sections: seq<Section>, keyName: int -> Result<string>): Result<map<string, string>> {
    Collect(Outcomes(sections, keyName))
  }

  /** Outcome `i` keeps the given nickname and hotkey. */
  predicate KeptAs(outcomes: seq<Outcome>, i: int, nickname: string, hotkey: string) {
    0 <= i < |outcomes| && outcomes[i] == Ok(Some((nickname, hotkey)))
  }

  /** Outcome `i` is the last one that keeps `nickname`. */
  ghost predicate LastKept(outcomes: seq<Outcome>, i: int, nickname: string, hotkey: string) {
    KeptAs(outcomes, i, nickname, hotkey) &&
    forall j, h :: i < j < |outcomes| ==> !KeptAs(outcomes, j, nickname, h)
  }

  /** The loop: for each section, skip it or store `result[nickname] = formatted`. */
  method GetUserKeymap(sections: seq<Section>, keyName: int -> Result<string>) returns (r: Result<map<string, string>>)
    ensures r == KeymapOf(sections, keyName)
  {
    ghost var outcomes := Outcomes(sections, keyName);
    var result: map<string, string> := map[];
    var i := 0;
    while i < |sections|
      invariant 0 <= i <= |sections|
      invariant Collect(outcomes[..i]) == Ok(result)
    {
      assert outcomes[..i + 1][..i] == outcomes[..i];
      var entry := Entry(sections[i], keyName);
      assert Collect(outcomes[..i + 1]) == Add(Ok(result), entry);
      match entry {
        case Err(e) =>
          CollectErrSticks(outcomes, i + 1);
          return Err(e);
        case Ok(None) =>
        case Ok(Some(pair)) =>
          result := result[pair.0 := pair.1];
      }
      i := i + 1;
    }
    assert outcomes[..i] == outcomes;
    return Ok(result);
  }

  /** Once the loop has raised, the outcome stays that exception. */
  lemma {:induction false} CollectErrSticks(outcomes: seq<Outcome>, i: nat)
    requires i <= |outcomes| && Collect(outcomes[..i]).Err?
    ensures Collect(outcomes) == Collect(outcomes[..i])
    decreases |outcomes| - i
  {
    if i < |outcomes| {
      assert outcomes[..i + 1][..i] == outcomes[..i];
      CollectErrSticks(outcomes, i + 1);
    } else {
      assert outcomes[..i] == outcomes;
    }
  }

  /**
   * What the loop builds: a nickname is present exactly when some section is kept under it,
   * and it maps to the hotkey of the LAST such section.
   */
  lemma {:induction false} CollectIsLastKept(outcomes: seq<Outcome>, nickname: string)
    requires Collect(outcomes).Ok?
    ensures var m := Collect(outcomes).value;
      (nickname in m <==> exists i, h :: KeptAs(outcomes, i, nickname, h)) &&
      (nickname in m ==> exists i :: LastKept(outcomes, i, nickname, m[nickname]))
    decreases |outcomes|
  {
    if outcomes != [] {
      var n := |outcomes| - 1;
      var front := outcomes[..n];
      CollectIsLastKept(front, nickname);
      var m0 := Collect(front).value;
      var m := Collect(outcomes).value;
      var last := outcomes[n];
      forall i, h | 0 <= i < n
        ensures KeptAs(front, i, nickname, h) <==> KeptAs(outcomes, i, nickname, h)
      {
      }
      if last.value.Some? && last.value.value.0 == nickname {
        assert LastKept(outcomes, n, nickname, m[nickname]);
      } else {
        assert forall h :: !KeptAs(outcomes, n, nickname, h);
        if nickname in m {
          var i :| LastKept(front, i, nickname, m0[nickname]);
          assert LastKept(outcomes, i, nickname, m[nickname]);
        } else if exists i, h :: KeptAs(outcomes, i, nickname, h) {
          var i, h :| KeptAs(outcomes, i, nickname, h);
          assert KeptAs(front, i, nickname, h);
        }
      }
    }
  }

  /**
   * `get_user_keymap`'s result: a nickname is present exactly when some section is kept
   * under it, and it maps to the hotkey of the last such section.
   */
  lemma KeymapIsLastKept(sections: seq<Section>, keyName: int -> Result<string>, nickname: string)
    requires KeymapOf(sections, keyName).Ok?
    ensures var m := KeymapOf(sections, keyName).value; var outcomes := Outcomes(sections, keyName);
      (nickname in m <==> exists i, h :: KeptAs(outcomes, i, nickname, h)) &&
      (nickname in m ==> exists i :: LastKept(outcomes, i, nickname, m[nickname]))
  {
    CollectIsLastKept(Outcomes(sections, keyName), nickname);
  }

  lemma {:induction false} CollectErrIfAnyErr(outcomes: seq<Outcome>, i: nat)
    requires i < |outcomes| && outcomes[i].Err?
    ensures Collect(outcomes).Err?
    decreases |outcomes|
  {
    if i < |outcomes| - 1 {
      assert outcomes[..|outcomes| - 1][i] == outcomes[i];
      CollectErrIfAnyErr(outcomes[..|outcomes| - 1], i);
    }
  }

  /** A section without a `nickname` or `key` value makes the whole call raise. */
  lemma MissingOptionRaises(sections: seq<Section>, keyName: int -> Result<string>, i: nat)
    requires i < |sections|
    requires First(sections[i], "nickname").Err? || First(sections[i], "key").Err?
    ensures KeymapOf(sections, keyName).Err?
  {
    CollectErrIfAnyErr(Outcomes(sections, keyName), i);
  }

  /** A key whose text before the first comma is not an integer is skipped. */
  lemma NonIntegerCodeSkipped(key: string, keyName: int -> Result<string>)
    requires ParseInt(SplitOn(key, ',')[0]).None?
    ensures Hotkey(key, keyName).None?
  {
  }

  /** A code the platform's key namer rejects is skipped, whatever modifiers follow it. */
  lemma RejectedCodeSkipped(code: nat, modifiers: string, keyName: int -> Result<string>)
    requires keyName(code).Err?
    ensures Hotkey(Decimal(code), keyName).None?
    ensures Hotkey(Decimal(code) + "," + modifiers, keyName).None?
  {
    ParseIntOfDecimal(code);
    assert ',' !in Decimal(code);
    IndexOfAfter(Decimal(code), ',', modifiers);
    SplitFirstPiece(Decimal(code) + "," + modifiers, ',');
    assert (Decimal(code) + "," + modifiers)[..|Decimal(code)|] == Decimal(code);
  }

  /** `code[,modifier[,...]]`: the name, and the first modifier when there is a comma. */
  lemma HotkeyFormat(code: nat, modifiers: seq<string>, keyName: int -> Result<string>)
    requires forall f :: f in modifiers ==> ',' !in f
    requires keyName(code).Ok?
    ensures modifiers == [] ==> Hotkey(Decimal(code), keyName) == Some(keyName(code).value)
    ensures modifiers != [] ==> Hotkey(Decimal(code) + "," + Join(modifiers, ','), keyName) == Some(keyName(code).value + "+" + modifiers[0])
  {
    ParseIntOfDecimal(code);
    assert ',' !in Decimal(code);
    if modifiers != [] {
      var key := Decimal(code) + "," + Join(modifiers, ',');
      SplitOnJoin([Decimal(code)] + modifiers, ',');
      assert Join([Decimal(code)] + modifiers, ',') == key;
    }
  }
}
