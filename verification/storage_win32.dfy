/**
 * flair/hook/storage/win32.py, and its older copy flair/hook/storage.py: key names come
 * from Windows (`MapVirtualKey` then `GetKeyNameTextW`), so the text Windows writes into
 * the name buffer is a parameter here. The registry read of the account name is a
 * foreign call and is not modelled.
 */
module StorageWin32 {
  import opened Wrappers
  import opened Text
  import Keymap

  /** `virtual_key_to_name`, given the buffer's text: ValueError when it is empty, else lowercased. */
  function VirtualKeyToName(keyText: string): (r: Result<string>)
    ensures r.Err? <==> keyText == []
    ensures r.Err? ==> r.error == ValueError
    ensures r.Ok? ==> |r.value| == |keyText| && forall i :: 0 <= i < |keyText| ==> r.value[i] == LowerChar(keyText[i])
  {
    if keyText == [] then Err(ValueError) else Ok(Lower(keyText))
  }

  /** A returned name has no upper-case ASCII letter left: lowering it again changes nothing. */
  lemma NamesAreLowercase(keyText: string)
    requires VirtualKeyToName(keyText).Ok?
    ensures Lower(VirtualKeyToName(keyText).value) == VirtualKeyToName(keyText).value
    ensures forall i :: 0 <= i < |VirtualKeyToName(keyText).value| ==> !('A' <= VirtualKeyToName(keyText).value[i] <= 'Z')
  {
  }

  /** The key names this platform gives, from what Windows writes for each code. */
  function KeyNames(keyText: int -> string): int -> Result<string> {
    (vk: int) => VirtualKeyToName(keyText(vk))
  }

  /** `get_user_keymap` with this platform's key names. */
  method GetUserKeymap(sections: seq<Keymap.Section>, keyText: int -> string) returns (r: Result<map<string, string>>)
    ensures r == Keymap.KeymapOf(sections, KeyNames(keyText))
  {
    r := Keymap.GetUserKeymap(sections, KeyNames(keyText));
  }

  /** An entry whose code Windows has no name for is skipped. */
  lemma UnnamedCodeSkipped(code: nat, modifiers: string, keyText: int -> string)
    requires keyText(code) == []
    ensures Keymap.Hotkey(Decimal(code), KeyNames(keyText)).None?
    ensures Keymap.Hotkey(Decimal(code) + "," + modifiers, KeyNames(keyText)).None?
  {
    Keymap.RejectedCodeSkipped(code, modifiers, KeyNames(keyText));
  }
}
