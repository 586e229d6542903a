# flair, modelled in Dafny

flair watches a running copy of the game Freelancer and turns what it sees into events. It reads
the game process's memory, checks the game window and reads the player's key map. From these it
keeps a set of reactive state variables (running, foreground, character loaded, name, credits,
system, base, docked, ...). Any change to one of them emits a signal on a small signal bus. The
chat-box controller hooks the keyboard, queues text for display, and decides when a chat message
was sent. The in-game command line answers messages of the form `..command args`.

This project models that core. Each source file gets its own module:

| module | file | form |
|---|---|---|
| `Events` | flair/inspect/events.py | class `Signal` over a callback set, plus the signal catalogue |
| `State` | flair/inspect/state.py | class `FreelancerState`, whose methods are proved equal to pure write and refresh functions |
| `Input` | flair/hook/input.py | class `ChatBox`, whose handlers are proved equal to pure controller functions |
| `ProcessPackage` | flair/hook/process/__init__.py | address table, read sizes, failed-read values and derived flags |
| `ProcessLinux` | flair/hook/process_linux.py | UTF-16 unit decoding loop, flags over failed reads |
| `ProcessWin32` | flair/hook/process.py | low-byte string decode and what a failed read returns |
| `VkLinux` | flair/hook/vk_linux.py | the virtual-key code table |
| `StorageLinux` | flair/hook/storage/linux.py | Wine registry scan, key names, key map |
| `StorageWin32` | flair/hook/storage/win32.py, flair/hook/storage.py | empty-name check and key map |
| `Keymap` | flair/hook/storage/__init__.py | the shared `vk[,modifier]` key-map loop |
| `Cli` | flair/augment/cli.py | message parsing, `Help`, `Sector`'s error, load/unload |

Two modules are shared. `Wrappers` holds Option, Result and the Python exception kinds. `Text`
models the Python `str` methods the source uses: `strip`, `partition`, `split`, `lower`,
`replace` and `int()`.

The environment is passed in as explicit inputs:
- An `Env` value gives one refresh's observations: window present, foreground, process handle,
  and the raw memory reads.
- Each chat-box handler takes the condition polls it will see.
- The reader of a memory buffer is an `Option` value, where `None` means the read failed.
- Emitted signals go to an append-only log.

## Model

| member | source | states |
|---|---|---|
| Events.Signal.constructor | flair/inspect/events.py:14-17 | a new signal holds the declared field-name schema and no subscribers |
| Events.Signal.Connect | flair/inspect/events.py:19-20 | the subscribers become the old set plus the function, so connecting twice changes nothing |
| Events.Signal.Disconnect | flair/inspect/events.py:22-24 | the subscribers become the old set minus the function: removed if present, a silent no-op otherwise, nothing else changes |
| Events.Signal.DisconnectAll | flair/inspect/events.py:26-27 | the subscriber set is left empty |
| Events.Signal.Emit | flair/inspect/events.py:29-33 | for keyword arguments with distinct names: ValueError exactly when the payload's key set differs from the schema's, and then nobody is called; otherwise each subscriber is called at most once, with the payload values in order; with no raiser every subscriber is called; a raising subscriber is the last one called and every earlier one did not raise |
| Events.FieldlessSignalsTakeNoPayload | flair/inspect/events.py:41-49 | the six signals declared without fields accept exactly the empty payload |
| Events.SchemaIgnoresValueTypes | flair/inspect/events.py:29-31 | conformance depends only on the field names, never on the types of the values |
| State.ReadRules | flair/inspect/state.py:35-42 | a read gives the default while the window is absent, `last` for a passive variable, and the getter's value otherwise |
| State.Initial | flair/inspect/state.py:61-66 | the observer before its first refresh holds the given system and base names, an empty log and the integer handle 0; every variable has its declared default and passivity, and its last value is that default |
| State.AbsentReadsGiveDefaults | flair/inspect/state.py:35-38 | with the window absent, every one of the eleven variables reads as its declared default |
| State.PassiveReadsGiveLast | flair/inspect/state.py:201-215 | with the window present, `system` and `base` read back their last written value |
| State.DependentReadsDefault | flair/inspect/state.py:128-220 | `foreground` reads False unless running; `name`, `credits` and `docked` read None unless a character is loaded |
| State.EqualWriteIsNoOp | flair/inspect/state.py:44-46 | writing the value a variable already holds leaves the whole observer unchanged, for every variable; for `credits` only when that value is not a failed read's object |
| State.FailedCreditsReadPublishes | flair/inspect/state.py:44-48 | writing a failed read's object to `credits` always emits `credits_changed` with that object and records it, even when the last value was such an object too |
| State.ChangingWritePublishesNewValue | flair/inspect/state.py:44-48 | a changing write of name, credits, account or system stores the new value and appends exactly its signal carrying the new value |
| State.RunningTransitions | flair/inspect/state.py:118-126 | starting stores the new process handle and emits `freelancer_started`; stopping closes a non-zero OS handle, then emits `freelancer_stopped` |
| State.DockingRule | flair/inspect/state.py:222-228 | docking while the live mouseover is a known base records that base and emits `docked(base)`; any change to a value other than True (False or None) emits `undocked`; docking elsewhere emits nothing |
| State.SettledRefreshIsNoOp | flair/inspect/state.py:81-93 | refreshing an observer whose variables already hold what is read changes nothing |
| State.RunningWritesSettle | flair/inspect/state.py:86-93 | after the writes gated on `running`, each written variable holds what reading it gives, and `running` and `foreground` are untouched |
| State.RefreshIsIdempotent | flair/inspect/state.py:81-93 | after a refresh the observer is settled, so a second refresh with the same observations changes nothing, unless the credits it reads are a failed read's object |
| State.FailedCreditsReadRepublishes | flair/inspect/state.py:44-48 | when a refreshed, running observer reads a failed read's object as its credits, every further refresh emits `credits_changed` again and changes nothing else |
| State.InitialIsGood | flair/inspect/state.py:61-67 | the constructed observer satisfies the refresh invariant |
| State.AbsentRefresh | flair/inspect/state.py:81-86 | with the window absent, a refresh only writes `running` and `foreground` as False |
| State.InitialAbsentRefreshIsNoOp | flair/inspect/state.py:61-106 | an observer constructed with no game window is still the initial observer after the first refresh, with nothing emitted |
| State.ConstructedWhileRunning | flair/inspect/state.py:61-106 | an observer constructed while the game runs has already recorded the process handle and emitted `freelancer_started` first |
| State.StartingRefresh | flair/inspect/state.py:81-126 | a refresh that finds the game newly running records its handle, and its first new log entry is `freelancer_started` |
| State.RunningWritesKeepProcess | flair/inspect/state.py:86-93 | the writes made while running never change the process handle |
| State.RefreshKeepsGood | flair/inspect/state.py:81-93 | a refresh keeps every declaration and the known names, only appends to the log, and emits only payloads whose field names match their signal |
| State.OtherWritesKeepSystem | flair/inspect/state.py:118-199 | the writes other than mouseover and character_loaded never touch `system` |
| State.LoadedSystemEffect | flair/inspect/state.py:174-181 | writing `character_loaded` changes the system only by clearing it on unload, and then emits `system_changed(None)` |
| State.MouseoverSystemEffect | flair/inspect/state.py:163-167 | writing `mouseover` changes the system only to a newly hovered known system name, and then emits `system_changed` with it |
| State.SystemChangeCause | flair/inspect/state.py:158-209 | a refresh changes the system only when the window is present and either the mouse moved onto a known system or the character was unloaded; `system_changed` with the new value is in the log |
| State.FreelancerState.constructor | flair/inspect/state.py:61-106 | the object is the `Initial` state after one refresh with the observations at construction, since `begin_polling` refreshes before `__init__` returns |
| State.FreelancerState.SetRunning | flair/inspect/state.py:113-126 | the object's new state is the running write of the old state |
| State.FreelancerState.SetForeground | flair/inspect/state.py:128-138 | the object's new state is the foreground write of the old state |
| State.FreelancerState.SetChatBox | flair/inspect/state.py:140-147 | the object's new state is the chat-box write, which emits nothing |
| State.FreelancerState.SetAccount | flair/inspect/state.py:149-156 | the object's new state is the account write of the old state |
| State.FreelancerState.SetMouseover | flair/inspect/state.py:158-167 | the object's new state is the mouseover write, including its system reaction |
| State.FreelancerState.SetCharacterLoaded | flair/inspect/state.py:169-181 | the object's new state is the character_loaded write, including the account re-read or the system and base reset |
| State.FreelancerState.SetName | flair/inspect/state.py:183-190 | the object's new state is the name write of the old state |
| State.FreelancerState.SetCredits | flair/inspect/state.py:192-199 | the object's new state is the credits write of the old state |
| State.FreelancerState.SetSystem | flair/inspect/state.py:201-209 | the object's new state is the system write of the old state |
| State.FreelancerState.SetBase | flair/inspect/state.py:211-215 | the object's new state is the base write, which has no reaction |
| State.FreelancerState.SetDocked | flair/inspect/state.py:217-228 | the object's new state is the docked write, including the base update and its events |
| State.FreelancerState.RefreshCharacter | flair/inspect/state.py:87-89 | the object's new state is the character_loaded, name and credits writes, in that order, each with what reading it gives |
| State.FreelancerState.RefreshSurroundings | flair/inspect/state.py:91-93 | the object's new state is the docked, mouseover and chat-box writes, in that order, each with what reading it gives |
| State.FreelancerState.RefreshWhileRunning | flair/inspect/state.py:86-93 | the object's new state is `RefreshRunning` of the old one |
| State.FreelancerState.Refresh | flair/inspect/state.py:81-93 | the object's new state is `Refreshed` of the old one, so it is idempotent, keeps the invariant and changes the system only for the two reasons above |
| Input.WaitUntil | flair/hook/input.py:166-172 | the loop polls until the condition holds or the budget runs out, then returns a fresh re-read of the condition |
| Input.StopAt | flair/hook/input.py:170-171 | the poll loop stops at the first poll where the condition holds, or at the budget |
| Input.WaitOnStableCondition | flair/hook/input.py:166-172 | for a condition that stays true once true, the wait succeeds exactly when it holds at some poll up to one after the budget |
| Input.WaitReturnsTheReread | flair/hook/input.py:170-172 | a condition that held and then stopped holding gives False: the result is the re-read, not the poll that ended the loop |
| Input.Ascii | flair/hook/input.py:59 | sanitising keeps exactly the ASCII characters, with their multiplicities, and nothing else |
| Input.AsciiAppend | flair/hook/input.py:59 | sanitising a concatenation concatenates the sanitised parts, so the kept characters stay in their original order |
| Input.AsciiKeepsAscii | flair/hook/input.py:59 | an ASCII message is sent unchanged |
| Input.MessageKeys | flair/hook/input.py:56-65 | sending opens the chat box with its hotkey, switches channel and prefixes `\|=\|  ` when private, writes the ASCII text, then presses enter |
| Input.SendsInOrder | flair/hook/input.py:132-133 | draining the queue writes the k-th queued message in the k-th send, in FIFO order |
| Input.HotkeyHooks | flair/hook/input.py:93-94 | every bound hotkey becomes one hook, in binding order |
| Input.HandlersKeepHotkeys | flair/hook/input.py:81-146 | the open, close and initialise handlers never change the bound hotkeys, and either keep or clear the captured keystrokes |
| Input.InitialiseHooksBoundHotkeys | flair/hook/input.py:81-94 | after `initialise_hotkey_hooks`, every bound hotkey is hooked as the last hooks installed |
| Input.BackgroundHandlersDoNothing | flair/hook/input.py:110-127 | outside the foreground both chat-box handlers leave everything unchanged |
| Input.ConfirmedOpen | flair/hook/input.py:108-120 | a confirmed open installs keystroke capture, enter→close and esc→cancel, emits `chat_box_opened`, and keeps the queue and the captured keys |
| Input.ConfirmedClose | flair/hook/input.py:125-144 | a confirmed close sends the whole queue in order if a character is loaded and keeps it otherwise; it leaves only the open hotkey hooked and clears the captured keys; it emits `chat_box_closed(False or contents)`, then `message_sent(contents)` exactly when not cancelled and something was typed |
| Input.ConfirmsKeepLogAccepted | flair/hook/input.py:120-139 | the emissions of a confirmed open or close match their signals' declared fields |
| Input.HandlersKeepLogAccepted | flair/hook/input.py:81-146 | however the handlers recurse, every emission matches its signal's declared fields |
| Input.Removed | flair/hook/input.py:41-43 | `list.remove` raises ValueError exactly when the entry is absent, and otherwise removes the first occurrence and keeps the other entries in order |
| Input.UnbindUndoesBind | flair/hook/input.py:35-43 | unbinding right after binding succeeds and restores the bindings as a multiset; when the entry was not bound before, it gives back the very same list |
| Input.ChatBox.constructor | flair/hook/input.py:30-32 | all module lists start empty, with nothing hooked or sent |
| Input.ChatBox.Bind | flair/hook/input.py:35-38 | appends the binding even when it is already bound, and nothing else changes |
| Input.ChatBox.Unbind | flair/hook/input.py:41-43 | removes one matching binding, or reports ValueError and changes nothing |
| Input.ChatBox.QueueDisplayText | flair/hook/input.py:46-53 | sends at once exactly when the window is foreground and the chat box is closed; otherwise appends to the queue and sends nothing |
| Input.ChatBox.SendMessage | flair/hook/input.py:56-65 | appends the keys of `MessageKeys` to the output, and nothing else changes |
| Input.ChatBox.DrainQueue | flair/hook/input.py:132-133 | empties the queue and sends every queued message in FIFO order |
| Input.ChatBox.Terminate | flair/hook/input.py:97-105 | every hook is removed, since `unhook_all` runs in the `finally` whether or not removing the hotkeys raised, and nothing else changes |
| Input.ChatBox.CollectEvent | flair/hook/input.py:149-153 | the keystroke is appended only while the window is foreground |
| Input.ChatBox.OnChatBoxOpened | flair/hook/input.py:108-122 | the new state is `Opened` of the old one |
| Input.ChatBox.OnChatBoxClosed | flair/hook/input.py:125-146 | the new state is `Closed` of the old one |
| Input.ChatBox.InitialiseHotkeyHooks | flair/hook/input.py:81-94 | the new state is `Initialised` of the old one |
| ProcessPackage.GetValue | flair/hook/process/__init__.py:36-39 | KeyError for an unknown key; the request uses the key's fixed address and type; a truthy size is used as given, and otherwise `sizeof*8` = 32, with TypeError exactly for string keys |
| ProcessPackage.GetString | flair/hook/process/__init__.py:42-44 | KeyError for an unknown key; otherwise, for any length but -1, the key's address and type with a buffer of `2*length+2` |
| ProcessPackage.GetChatBoxState | flair/hook/process/__init__.py:81-85 | the chat box reads open exactly when the enter-hooking read is a non-zero number and the focus read is 0 or failed |
| ProcessPackage.GetCharacterLoaded | flair/hook/process/__init__.py:88-90 | a character is loaded exactly when the `logged_in` read is a non-zero number |
| ProcessPackage.GetDocked | flair/hook/process/__init__.py:93-95 | docked exactly when the `in_space` read is 0 or failed |
| ProcessPackage.StringReadSizes | flair/hook/process/__init__.py:47-78 | name, mouseover, rollover and last_message ask for 48, 258, 258 and 256 |
| ProcessPackage.ZeroSizeIsDefault | flair/hook/process/__init__.py:38 | a size of 0 behaves as no size |
| ProcessPackage.GetStringSucceedsOnStringKeys | flair/hook/process/__init__.py:42-44 | a string read asks for `2*length+2` and never needs `sizeof(str)` |
| ProcessPackage.FailedReadEqualsNothing | flair/hook/process.py:59-67 | a failed read's ctypes object is falsy and equals no value, not even another failed read; a number equals itself |
| ProcessPackage.ZeroReadsAndFocus | flair/hook/process/__init__.py:81-95 | zero and failed reads both give chat box closed, no character and docked; a darkening dialogue keeps the chat box closed; the chat box is open exactly when enter is hooked and nothing darkens |
| ProcessLinux.Utf16Units | flair/hook/process_linux.py:46-47 | an even buffer splits into len/2 little-endian units, in order |
| ProcessLinux.DecodeUnit | flair/hook/process_linux.py:57-60 | a unit decodes to at most one character and fails exactly for a surrogate; a byte-order mark gives '', and any other unit gives the character with its own code point |
| ProcessLinux.StopIndex | flair/hook/process_linux.py:53-60 | the decode stops at the first zero or surrogate unit |
| ProcessLinux.CharArrayToStr | flair/hook/process_linux.py:50-61 | the loop returns the per-unit decode of the units before the first stopping unit |
| ProcessLinux.ZeroUnitTerminates | flair/hook/process_linux.py:53-55 | nothing after a zero unit reaches the result |
| ProcessLinux.BmpRoundTrip | flair/hook/process_linux.py:50-61 | text of the Basic Multilingual Plane without NUL or a character read as a byte-order mark, written as UTF-16LE and zero-terminated, reads back as itself whatever follows |
| ProcessLinux.SurrogateTerminates | flair/hook/process_linux.py:57-60 | a surrogate unit ends the string |
| ProcessLinux.AtMostOneCharPerUnit | flair/hook/process_linux.py:50-61 | the result has at most one character per unit before the terminator |
| ProcessLinux.ReadString | flair/hook/process_linux.py:64-95 | a failed string read gives `''`, and a successful one the decoded buffer |
| ProcessLinux.GetChatBoxState | flair/hook/process_linux.py:165-169 | the chat box reads open exactly when the enter-hooking read is a non-zero number and the focus read is 0 or failed (`None`) |
| ProcessLinux.GetCharacterLoaded | flair/hook/process_linux.py:172-174 | a character is loaded exactly when the `logged_in` read succeeded with a non-zero number |
| ProcessLinux.GetDocked | flair/hook/process_linux.py:177-179 | docked exactly when the `in_space` read is 0 or failed (`None`) |
| ProcessLinux.FlagsAgreeWithPackage | flair/hook/process_linux.py:165-179 | the flags equal the package's flags with a failed read (`None`) taken as the package's failed-read object, so a failed `in_space` read reports docked |
| ProcessLinux.StringReadBytes | flair/hook/process_linux.py:126-128 | a string read of `length` units covers `4*length+4` bytes |
| ProcessWin32.IndexOfZeroPair | flair/hook/process.py:63 | finds the first `\0\0` at any offset, odd or even |
| ProcessWin32.DecodeLowBytes | flair/hook/process.py:63 | ValueError exactly when the buffer holds no `\0\0` |
| ProcessWin32.DecodeShape | flair/hook/process.py:63 | the result has ceil(i/2) characters, each the byte at an even offset before the first `\0\0` at i, so each is below 256 |
| ProcessWin32.OddOffsetZeroPairTruncates | flair/hook/process.py:63 | a `\0\0` straddling two units ends the string early |
| ProcessWin32.Latin1RoundTrip | flair/hook/process.py:63 | UTF-16LE text of Latin-1 characters with a terminator decodes back to itself |
| ProcessWin32.ReadString | flair/hook/process.py:59-67 | a failed read gives `''` |
| ProcessWin32.ReadValue | flair/hook/process.py:59-67 | a failed scalar read gives the `datatype()` object, which is falsy and equals no value; a successful one gives the value read |
| VkLinux.VkName | flair/hook/vk_linux.py:1-267 | the table's lookup: only codes from 0x01 to 0xFE have a name |
| VkLinux.DuplicateCodeKeepsLaterName | flair/hook/vk_linux.py:159-161 | 0x92 maps to the later entry, `VK_OEM_FJ_JISHO` |
| VkLinux.ReservedCodesAbsent | flair/hook/vk_linux.py:10-72 | 0x07, 0x0A-0x0B, 0x0E-0x0F and 0x3A-0x40 have no entry |
| VkLinux.NamedByOwnCharacter | flair/hook/vk_linux.py:62-98 | 0x30-0x39 and 0x41-0x5A are `VK_` followed by their own character |
| VkLinux.FunctionKey | flair/hook/vk_linux.py:122-145 | 0x70-0x87 are `VK_F1` to `VK_F24`, in order |
| VkLinux.EveryNameWellFormed | flair/hook/vk_linux.py:1-267 | every key lies in 0x01-0xFE, and every name is `VK_` followed by a non-empty token |
| StorageLinux.HeaderPath | flair/hook/storage/linux.py:27-28 | a header's path is the text between `[` and the first `]` |
| StorageLinux.AccountValueIsSecondField | flair/hook/storage/linux.py:31 | the account is the text between the first and second `=`, with every `"` removed |
| StorageLinux.ActiveAccountName | flair/hook/storage/linux.py:16-31 | the result is the section scan for the registry directory with backslashes doubled |
| StorageLinux.AccountIn | flair/hook/storage/linux.py:22-31 | the line loop, for any section name, computes the section scan over the file's lines, with None when the loop ends |
| StorageLinux.SearchStartsAfterHeader | flair/hook/storage/linux.py:24-28 | the search starts after the first header whose path is the registry directory with backslashes doubled |
| StorageLinux.InsideSection | flair/hook/storage/linux.py:26-31 | once inside, later headers do not end the search; the result is the first account line's value, and None exactly when there is none |
| StorageLinux.NoHeaderNoName | flair/hook/storage/linux.py:25-31 | without the header the result is None |
| StorageLinux.VirtualKeyToName | flair/hook/storage/linux.py:34-39 | ValueError exactly for codes absent from the table; otherwise the lowercased second `_` token of the table name |
| StorageLinux.LetterKeyName | flair/hook/storage/linux.py:36-37 | 0x41 names `a` |
| StorageLinux.ReturnKeyName | flair/hook/storage/linux.py:36-37 | 0x0D names `return` |
| StorageLinux.OemKeyToken | flair/hook/storage/linux.py:36-37 | every `VK_OEM_*` name gives `oem` |
| StorageLinux.GetUserKeymap | flair/hook/storage/linux.py:42-60 | the loop computes the shared key map, with the table as key namer |
| StorageLinux.UnknownCodeSkipped | flair/hook/storage/linux.py:52-56 | an entry whose code is not in the table adds no hotkey |
| StorageWin32.VirtualKeyToName | flair/hook/storage/win32.py:25-33 | ValueError exactly when the looked-up name is empty, and otherwise the name with its ASCII capitals lowered (flair/hook/storage.py:37-46 is the same code) |
| StorageWin32.NamesAreLowercase | flair/hook/storage/win32.py:33 | every returned name has no ASCII capitals, and lowering it again changes nothing |
| StorageWin32.GetUserKeymap | flair/hook/storage/win32.py:36-54 | the loop computes the shared key map, with the system's key names (flair/hook/storage.py:49-68 runs the same loop) |
| StorageWin32.UnnamedCodeSkipped | flair/hook/storage/win32.py:46-50 | an entry whose code has no key name adds no hotkey |
| Keymap.First | flair/hook/storage/__init__.py:28 | the first value of an option; KeyError when the option is missing, IndexError when it is empty |
| Keymap.GetUserKeymap | flair/hook/storage/__init__.py:19-37 | the loop equals `KeymapOf`, the fold of the entries' outcomes |
| Keymap.CollectIsLastKept | flair/hook/storage/__init__.py:24-37 | a nickname is in the map exactly when some entry was kept for it, and its hotkey is that of the last such entry |
| Keymap.KeymapIsLastKept | flair/hook/storage/__init__.py:24-37 | the same, stated over the sections: later entries overwrite earlier ones and nothing else is added |
| Keymap.CollectErrIfAnyErr | flair/hook/storage/__init__.py:28 | an entry that raises makes the whole key map raise |
| Keymap.MissingOptionRaises | flair/hook/storage/__init__.py:28 | an entry missing its nickname or key raises, because that lookup is outside the `try` |
| Keymap.NonIntegerCodeSkipped | flair/hook/storage/__init__.py:29-33 | an entry whose text before the first comma is not an integer is skipped |
| Keymap.RejectedCodeSkipped | flair/hook/storage/__init__.py:30-33 | an entry whose code the platform's `virtual_key_to_name` rejects is skipped, whatever modifiers follow |
| Keymap.HotkeyFormat | flair/hook/storage/__init__.py:29-35 | with no comma the hotkey is the bare name; otherwise it is name, `+`, and the first modifier, and later fields are ignored |
| Cli.Lookup | flair/augment/cli.py:85-86 | finds a command exactly when the name equals its lowercased class name |
| Cli.LookupIsExact | flair/augment/cli.py:85-89 | the known names are exactly date, sector, eval, quit and help |
| Cli.CapitalisedNameNotFound | flair/augment/cli.py:85-89 | `..Help` is not found |
| Cli.ParseMessage | flair/augment/cli.py:80-89 | a message whose stripped text does not start with `..` queues nothing; the only errors are the ValueError of a bare `..` and a command's TypeError |
| Cli.CommandsStartWithInvocation | flair/augment/cli.py:80-89 | a message is a command exactly when its stripped text starts with `..`, and otherwise queues nothing; a bare `..` raises ValueError; the first word is the command and the rest are its arguments |
| Cli.Run | flair/augment/cli.py:26-64 | a command other than `eval` given arguments raises TypeError, and that is the only error; `help` without arguments queues `HelpLines()` |
| Cli.SectorUnknownLocation | flair/augment/cli.py:36-37 | with no known system `..sector` queues `Err: unknown location` |
| Cli.EvalArguments | flair/augment/cli.py:44-51 | `..eval` alone queues nothing, and otherwise its words are the expression |
| Cli.HelpLines | flair/augment/cli.py:59-64 | the version line comes first, then one line per command in class order |
| Cli.HelpLinesAreLowercase | flair/augment/cli.py:64 | every help line is lowercase and starts with `..` and the command's name |
| Input.Wire | flair/hook/input.py:175-176 | `switched_to_foreground` gains `initialise_hotkey_hooks` and `switched_to_background` gains `terminate_hotkey_hooks` as subscribers |
| Cli.Load | flair/augment/cli.py:66-68 | connects the welcome message to `character_changed` and the parser to `message_sent` |
| Cli.Unload | flair/augment/cli.py:70-72 | disconnects exactly those two callbacks |

## Left out

- I/O and foreign calls are inputs or are not modelled:
  - reading the registry file and `splitlines` (the scan takes the lines);
  - `winreg` and the Windows `get_active_account_name`;
  - `GetKeyNameTextW` (a `keyText` function parameter);
  - flint's `ini.sections`/`ini.parse` (the key map takes a sequence of sections);
  - `tail_chat_log`, `get_launcher_accounts` and `set_wine_prefix_path`.
- `read_memory`'s ctypes buffers, `process_vm_readv`, `ReadProcessMemory`, `get_process`, `ensure_root` and the flair/hook/process/linux.py and win32.py readers are not part of this model, except that a failed scalar read returns `datatype()` there as in flair/hook/process.py. A read is an `Option` input.
- Window probing (flair/hook/window.py and flair/hook/window/) becomes the boolean inputs present and foreground.
- The `keyboard` library is an abstract list of installed hooks plus an output log of sent keys and written text. `get_typed_strings` is the uninterpreted `contentsOf` of the captured events.
- `get_chat_box_open_hotkey` is the `openHotkey` input. Its KeyError when the key map lacks `user_chat` is not modelled.
- `_wait_until`'s wall-clock timeout becomes a poll budget. `time.sleep` is dropped.
- Input.Initialised: the mutual recursion between `initialise_hotkey_hooks` and the two handlers is driven by a finite list of attempts. When the list runs out, the recursion stops. The source may recurse without bound.
- The `assert` statements in `bind_hotkey`, `send_message`, `inject_keys`, `inject_text` and `initialise_hotkey_hooks` are not modelled.
- `inject_keys` and `inject_text` appear only as the outputs they send.
- Threads are not modelled. `begin_polling`/`end_polling` and the `threading.Timer` loop are concurrency, and one refresh is one atomic step. Keyboard callbacks are likewise each one atomic step.
- `state_variable`'s descriptors become value fields of one observer. This matches a single observer instance, since `last` is shared per class. The decorator wiring (`__call__`, and `changed` raising TypeError without a getter) is not modelled.
- `pos`, `get_position`, `PosVector` and `Sector`'s navmap-scale computation are floating-point work over flint data, and are not modelled.
- `FreelancerState.__init__` loads the systems and bases through flint. Here they are constructor parameters.
- `__str__` is not modelled.
- Cli.Run: `date`, `quit`, `eval` with arguments, and `sector` with a known system return `External(command, args)` instead of their effect. Those effects are the clock and locale formatting, key injection, Python `eval`, and flint lookups.
- `show_welcome_message` is modelled only as its text (`WelcomeText`).
- Text.ParseInt accepts ASCII digits only, with underscores between digits. Python's `int()` also accepts other Unicode decimal digits. Only the round trip for naturals is proved.
- StorageWin32.VirtualKeyToName: lowers ASCII capitals only. Python's `str.lower()` also lowers non-ASCII capitals in the localised names Windows gives (`ÉCHAP` becomes `échap`), and can change the length (`İ` becomes two characters). Unicode case mapping is not modelled, so StorageWin32.NamesAreLowercase promises only that no ASCII capital is left.
- The AttributeError that `remove_all_hotkeys` may raise in `terminate_hotkey_hooks` is swallowed and `unhook_all` removes every hook anyway, so the model has no input for it.
- VkLinux.VkName: the table's first 0x92 entry (`VK_OEM_NEC_EQUAL`) is not represented, because a Python dict display keeps only the later entry.
- Input.Closed, Input.Opened and the State `Write*` functions (with the `FreelancerState` setters and `Refresh`) assume that every signal emission returns. In the source, a subscriber that raises inside `emit` ends the caller. One example is `..` or `..date now` reaching `parse_message` through `message_sent`. In `on_chat_box_closed` the hooks are then not terminated, the open hotkey is not added and the captured events are not cleared. In `__set__` the raise skips `self.last = value`. It also leaves `poll` before the timer is re-armed, so polling stops. Only Events.Signal.Emit has a `raises` input.
- `CHAT_MESSAGE_MAX_LENGTH` is never used by the core. `get_rollover` and `get_last_message` appear only as their read sizes. `get_credits` is the observer's `credits` input, a number or a failed read's object.
