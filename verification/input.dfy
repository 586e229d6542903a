/**
 * The chat-box controller of flair/hook/input.py.
 *
 * The module keeps three lists (`hotkeys`, `message_queue`, `chat_box_events`) and drives
 * the `keyboard` library through a small state machine: while the chat box is closed only
 * the open-chat hotkey and the user's bound hotkeys are hooked; once it is confirmed open,
 * every keystroke is captured and enter/esc close it again. Each handler is one atomic
 * step; the window, the chat-box readings and the keyboard library are inputs, and what
 * the library is asked to install or to type is recorded.
 */
module Input {
  import opened Wrappers
  import opened Events

  const EchoPreamble := "|=|  "
  const KeySendMessage := "enter"
  const KeyCloseChatBox := "esc"
  const KeyChangeChatChannel := "up"

  /** A keystroke captured while the chat box is open. */
  datatype KeyEvent = KeyEvent(name: string, down: bool)

  /** What a hooked hotkey runs. */
  datatype Action = Run(callback: Callback) | Open | Close(cancelled: bool)

  /** A hook installed in the keyboard library: the keystroke capture, or a hotkey. */
  datatype Hook = Capture | Hotkey(combination: string, action: Action)

  /** What the keyboard library is asked to type into the game: a key combination, or text. */
  datatype Output = Send(key: string) | Write(text: string)

  /** The outside world during one handler: the window, the character, the configured open-chat key, the wait budget. */
  datatype Env = Env(
    foreground: bool,                        // window.is_foreground()
    characterLoaded: bool,                   // process.get_character_loaded
    openHotkey: string,                      // get_chat_box_open_hotkey()
    budget: nat,                             // how many failed polls fit in _wait_until's timeout
    contentsOf: seq<KeyEvent> -> string)     // get_typed_strings joined: what the captured keys typed

  /**
   * One `_wait_until` in the chain of retries: the chat-box state at each successive poll,
   * and the state `initialise_hotkey_hooks` reads if the wait fails.
   */
  datatype Attempt = Attempt(polls: nat -> bool, thenOpen: bool)

  // ---------------------------------------------------------------------------
  // _wait_until

  /** The poll at which the loop stops: the first that holds, or the last one the budget allows. */
  function StopAt(condition: nat -> bool, budget: nat, from: nat): (r: nat)
    requires from <= budget
    ensures from <= r <= budget
    ensures forall j :: from <= j < r ==> !condition(j)
    ensures condition(r) || r == budget
    decreases budget - from
  {
    if condition(from) || from == budget then from else StopAt(condition, budget, from + 1)
  }

  /** What `_wait_until` returns: `condition()` read once more after the loop stops. */
  function WaitResult(condition: nat -> bool, budget: nat): bool {
    condition(StopAt(condition, budget, 0) + 1)
  }

  /** The loop of `_wait_until`: poll until the condition holds or the time is up, then read it again. */
  method WaitUntil(condition: nat -> bool, budget: nat) returns (r: bool)
    ensures r == WaitResult(condition, budget)
  {
    var i := 0;
    while !condition(i) && i < budget
      invariant 0 <= i <= budget
      invariant forall j :: 0 <= j < i ==> !condition(j)
      decreases budget - i
    {
      i := i + 1;
    }
    StopAtIsFirst(condition, budget, i);
    r := condition(i + 1);
  }

  lemma StopAtIsFirst(condition: nat -> bool, budget: nat, i: nat)
    requires i <= budget && (condition(i) || i == budget)
    requires forall j :: 0 <= j < i ==> !condition(j)
    ensures StopAt(condition, budget, 0) == i
  {
  }

  /** For a condition that stays true once true, the wait succeeds exactly when it held at some poll, the final read included. */
  lemma WaitOnStableCondition(condition: nat -> bool, budget: nat)
    requires forall i: nat :: condition(i) ==> condition(i + 1)
    ensures WaitResult(condition, budget) <==> exists j: nat :: j <= budget + 1 && condition(j)
  {
    var s := StopAt(condition, budget, 0);
    if exists j: nat :: j <= budget + 1 && condition(j) {
      var j: nat :| j <= budget + 1 && condition(j);
      assert j >= s;
    }
  }

  /** The result is the re-read: a condition that held at the first poll and no longer does gives False. */
  lemma WaitReturnsTheReread(condition: nat -> bool, budget: nat)
    requires condition(0) && !condition(1)
    ensures !WaitResult(condition, budget)
  {
    assert StopAt(condition, budget, 0) == 0;
  }

  // ---------------------------------------------------------------------------
  // Messages typed into the game

  /** `encode('ascii', errors='ignore').decode()`: every non-ASCII character dropped. */
  function Ascii(s: string): (r: string)
    ensures |r| <= |s|
    ensures forall i :: 0 <= i < |r| ==> r[i] < 128 as char
    ensures forall c :: multiset(r)[c] == if c < 128 as char then multiset(s)[c] else 0
  {
    if s == [] then []
    else
      assert s == [s[0]] + s[1..];
      (if s[0] < 128 as char then [s[0]] else []) + Ascii(s[1..])
  }

  /** Sanitising works character by character, so the kept characters stay in their original order. */
  lemma {:induction false} AsciiAppend(a: string, b: string)
    ensures Ascii(a + b) == Ascii(a) + Ascii(b)
  {
    if a != [] {
      var head := if a[0] < 128 as char then [a[0]] else [];
      assert (a + b)[0] == a[0] && (a + b)[1..] == a[1..] + b;
      assert Ascii(a + b) == head + Ascii(a[1..] + b);
      AsciiAppend(a[1..], b);
      assert Ascii(a) == head + Ascii(a[1..]);
    } else {
      assert a + b == b;
    }
  }

  lemma {:induction false} AsciiKeepsAscii(s: string)
    requires forall i :: 0 <= i < |s| ==> s[i] < 128 as char
    ensures Ascii(s) == s
  {
    if s != [] {
      AsciiKeepsAscii(s[1..]);
    }
  }

  /** The keys `send_message` injects: open the chat box, optionally switch to the console channel and prefix the preamble, type, press enter. */
  function MessageKeys(message: string, private: bool, openHotkey: string): (r: seq<Output>)
    ensures |r| == if private then 4 else 3
    ensures r[0] == Send(openHotkey) && r[|r| - 1] == Send(KeySendMessage)
    ensures private ==> r[1] == Send(KeyChangeChatChannel) && r[2] == Write(EchoPreamble + Ascii(message))
    ensures !private ==> r[1] == Write(Ascii(message))
  {
    if private then [Send(openHotkey), Send(KeyChangeChatChannel), Write(EchoPreamble + Ascii(message)), Send(KeySendMessage)]
    else [Send(openHotkey), Write(Ascii(message)), Send(KeySendMessage)]
  }

  /** The keys injected by sending each message privately, in order. */
  function Sends(messages: seq<string>, openHotkey: string): (r: seq<Output>)
    ensures |r| == 4 * |messages|
    decreases |messages|
  {
    if messages == [] then []
    else Sends(messages[..|messages| - 1], openHotkey) + MessageKeys(messages[|messages| - 1], true, openHotkey)
  }

  /** The messages' texts appear in the injected keys in queue order (first in, first out). */
  lemma {:induction false} SendsInOrder(messages: seq<string>, openHotkey: string, k: nat)
    requires k < |messages|
    ensures Sends(messages, openHotkey)[4 * k + 2] == Write(EchoPreamble + Ascii(messages[k]))
    decreases |messages|
  {
    var n := |messages| - 1;
    if k < n {
      assert messages[..n][k] == messages[k];
      SendsInOrder(messages[..n], openHotkey, k);
    }
  }

  // ---------------------------------------------------------------------------
  // The controller's state and its handlers, as values

  /** The module lists, the hooks the keyboard library holds, what it has typed, and what has been emitted. */
  datatype Controller = Controller(
    hotkeys: seq<(string, Callback)>,
    messageQueue: seq<string>,
    chatBoxEvents: seq<KeyEvent>,
    installed: seq<Hook>,
    outputs: seq<Output>,
    log: seq<Emission>)

  /** The hooks that `initialise_hotkey_hooks` adds for the bound hotkeys, in binding order. */
  function HotkeyHooks(hotkeys: seq<(string, Callback)>): (r: seq<Hook>)
    ensures |r| == |hotkeys| && forall i :: 0 <= i < |hotkeys| ==> r[i] == Hotkey(hotkeys[i].0, Run(hotkeys[i].1))
  {
    seq(|hotkeys|, i requires 0 <= i < |hotkeys| => Hotkey(hotkeys[i].0, Run(hotkeys[i].1)))
  }

  /** The hooks held while the chat box is open: the keystroke capture, enter and esc. */
  const OpenHooks := [Capture, Hotkey(KeySendMessage, Close(false)), Hotkey(KeyCloseChatBox, Close(true))]

  /** What a confirmed open does. */
  function ConfirmOpen(c: Controller): Controller {
    c.(installed := OpenHooks, log := c.log + [Emission(ChatBoxOpened, [])])
  }

  /** The `message_sent` field of `chat_box_closed`: `not cancelled and contents`. */
  function SentValue(cancelled: bool, contents: string): Value {
    if cancelled then Bool(false) else Str(contents)
  }

  /** What a confirmed close does. */
  function ConfirmClose(c: Controller, env: Env, cancelled: bool): Controller {
    var drained :=
      if env.characterLoaded then c.(messageQueue := [], outputs := c.outputs + Sends(c.messageQueue, env.openHotkey))
      else c;
    var contents := env.contentsOf(c.chatBoxEvents);
    var closed := [Emission(ChatBoxClosed, [("message_sent", SentValue(cancelled, contents))])];
    var sent := if !cancelled && contents != [] then [Emission(MessageSent, [("message", Str(contents))])] else [];
    drained.(log := drained.log + closed + sent, installed := [Hotkey(env.openHotkey, Open)], chatBoxEvents := [])
  }

  function Negated(polls: nat -> bool): nat -> bool {
    (i: nat) => !polls(i)
  }

  /**
   * `on_chat_box_opened` given the retries left: nothing outside the foreground; a
   * confirmed open; or, when the wait fails, `initialise_hotkey_hooks` with the next attempt.
   * With no attempt left the chain stops (see the README).
   */
  function Opened(c: Controller, env: Env, attempts: seq<Attempt>): Controller
    decreases |attempts|, 0
  {
    if !env.foreground || attempts == [] then c
    else if WaitResult(attempts[0].polls, env.budget) then ConfirmOpen(c)
    else Initialised(c, env, attempts[0].thenOpen, attempts[1..])
  }

  /** `on_chat_box_closed(cancelled)`, in the same way. */
  function Closed(c: Controller, env: Env, cancelled: bool, attempts: seq<Attempt>): Controller
    decreases |attempts|, 0
  {
    if !env.foreground || attempts == [] then c
    else if WaitResult(Negated(attempts[0].polls), env.budget) then ConfirmClose(c, env, cancelled)
    else Initialised(c, env, attempts[0].thenOpen, attempts[1..])
  }

  /** `initialise_hotkey_hooks`: the handler for the state the chat box reads as, then every bound hotkey hooked. */
  function Initialised(c: Controller, env: Env, open: bool, attempts: seq<Attempt>): Controller
    decreases |attempts|, 1
  {
    var h := if open then Opened(c, env, attempts) else Closed(c, env, false, attempts);
    h.(installed := h.installed + HotkeyHooks(h.hotkeys))
  }

  // ---------------------------------------------------------------------------
  // Properties of the handlers

  /** The handlers never change the bound hotkeys, and `chat_box_events` is either kept or cleared. */
  lemma {:induction false} HandlersKeepHotkeys(c: Controller, env: Env, cancelled: bool, open: bool, attempts: seq<Attempt>)
    ensures Opened(c, env, attempts).hotkeys == c.hotkeys
    ensures Closed(c, env, cancelled, attempts).hotkeys == c.hotkeys
    ensures Initialised(c, env, open, attempts).hotkeys == c.hotkeys
    ensures Opened(c, env, attempts).chatBoxEvents in {c.chatBoxEvents, []}
    ensures Closed(c, env, cancelled, attempts).chatBoxEvents in {c.chatBoxEvents, []}
    ensures Initialised(c, env, open, attempts).chatBoxEvents in {c.chatBoxEvents, []}
    decreases |attempts|
  {
    if attempts != [] {
      HandlersKeepHotkeys(c, env, false, attempts[0].thenOpen, attempts[1..]);
    }
    HandlersKeepHotkeysOnce(c, env, cancelled, attempts);
  }

  lemma HandlersKeepHotkeysOnce(c: Controller, env: Env, cancelled: bool, attempts: seq<Attempt>)
    requires attempts != [] ==>
      Initialised(c, env, attempts[0].thenOpen, attempts[1..]).hotkeys == c.hotkeys &&
      Initialised(c, env, attempts[0].thenOpen, attempts[1..]).chatBoxEvents in {c.chatBoxEvents, []}
    ensures Opened(c, env, attempts).hotkeys == c.hotkeys
    ensures Closed(c, env, cancelled, attempts).hotkeys == c.hotkeys
    ensures Opened(c, env, attempts).chatBoxEvents in {c.chatBoxEvents, []}
    ensures Closed(c, env, cancelled, attempts).chatBoxEvents in {c.chatBoxEvents, []}
    ensures forall open: bool :: Initialised(c, env, open, attempts).hotkeys == c.hotkeys
    ensures forall open: bool :: Initialised(c, env, open, attempts).chatBoxEvents in {c.chatBoxEvents, []}
  {
    assert Initialised(c, env, true, attempts).hotkeys == Opened(c, env, attempts).hotkeys;
    assert Initialised(c, env, false, attempts).hotkeys == Closed(c, env, false, attempts).hotkeys;
  }

  /** After `initialise_hotkey_hooks` every bound hotkey is hooked, as the last hooks installed. */
  lemma InitialiseHooksBoundHotkeys(c: Controller, env: Env, open: bool, attempts: seq<Attempt>)
    ensures var r := Initialised(c, env, open, attempts);
      |r.installed| >= |c.hotkeys| && r.installed[|r.installed| - |c.hotkeys|..] == HotkeyHooks(c.hotkeys)
  {
    HandlersKeepHotkeys(c, env, false, open, attempts);
  }

  /** Outside the foreground both handlers do nothing. */
  lemma BackgroundHandlersDoNothing(c: Controller, env: Env, cancelled: bool, attempts: seq<Attempt>)
    requires !env.foreground
    ensures Opened(c, env, attempts) == c && Closed(c, env, cancelled, attempts) == c
  {
  }

  /** A confirmed open captures keystrokes and hooks enter and esc to close, and emits `chat_box_opened`. */
  lemma ConfirmedOpen(c: Controller, env: Env, attempts: seq<Attempt>)
    requires env.foreground && attempts != [] && WaitResult(attempts[0].polls, env.budget)
    ensures var r := Opened(c, env, attempts);
      r.installed == [Capture, Hotkey("enter", Close(false)), Hotkey("esc", Close(true))] &&
      r.log == c.log + [Emission(ChatBoxOpened, [])] &&
      r.messageQueue == c.messageQueue && r.chatBoxEvents == c.chatBoxEvents && r.outputs == c.outputs
  {
  }

  /**
   * A confirmed close with a character loaded sends the whole queue in order and empties it;
   * without one the queue stays. Either way only the open-chat hotkey is left hooked, the
   * captured keys are cleared, `chat_box_closed` is emitted, and `message_sent` follows
   * exactly when the close was not a cancel and something was typed.
   */
  lemma ConfirmedClose(c: Controller, env: Env, cancelled: bool, attempts: seq<Attempt>)
    requires env.foreground && attempts != [] && WaitResult(Negated(attempts[0].polls), env.budget)
    ensures var r := Closed(c, env, cancelled, attempts); var contents := env.contentsOf(c.chatBoxEvents);
      r.installed == [Hotkey(env.openHotkey, Open)] && r.chatBoxEvents == [] &&
      (env.characterLoaded ==> r.messageQueue == [] && r.outputs == c.outputs + Sends(c.messageQueue, env.openHotkey)) &&
      (!env.characterLoaded ==> r.messageQueue == c.messageQueue && r.outputs == c.outputs) &&
      |r.log| >= |c.log| + 1 && r.log[..|c.log|] == c.log &&
      r.log[|c.log|] == Emission(ChatBoxClosed, [("message_sent", if cancelled then Bool(false) else Str(contents))]) &&
      (|r.log| == |c.log| + 2 <==> !cancelled && contents != []) &&
      (|r.log| == |c.log| + 2 ==> r.log[|c.log| + 1] == Emission(MessageSent, [("message", Str(contents))]))
  {
  }

  // Every emission conforms to its signal's declared fields

  predicate LogAccepted(log: seq<Emission>) {
    forall i :: 0 <= i < |log| ==> Accepted(log[i])
  }

  lemma ConfirmsKeepLogAccepted(c: Controller, env: Env, cancelled: bool)
    requires LogAccepted(c.log)
    ensures LogAccepted(ConfirmOpen(c).log) && LogAccepted(ConfirmClose(c, env, cancelled).log)
  {
    var contents := env.contentsOf(c.chatBoxEvents);
    OneFieldKeys("message_sent", SentValue(cancelled, contents));
    OneFieldKeys("message", Str(contents));
  }

  /** The handlers emit only events whose fields are exactly those their signal declares. */
  lemma {:induction false} HandlersKeepLogAccepted(c: Controller, env: Env, cancelled: bool, open: bool, attempts: seq<Attempt>)
    requires LogAccepted(c.log)
    ensures LogAccepted(Opened(c, env, attempts).log)
    ensures LogAccepted(Closed(c, env, cancelled, attempts).log)
    ensures LogAccepted(Initialised(c, env, open, attempts).log)
    decreases |attempts|
  {
    ConfirmsKeepLogAccepted(c, env, cancelled);
    ConfirmsKeepLogAccepted(c, env, false);
    if attempts != [] {
      HandlersKeepLogAccepted(c, env, false, attempts[0].thenOpen, attempts[1..]);
    }
    assert Initialised(c, env, true, attempts).log == Opened(c, env, attempts).log;
    assert Initialised(c, env, false, attempts).log == Closed(c, env, false, attempts).log;
  }

  // ---------------------------------------------------------------------------
  // Binding, and removing from the module list

  /** The index of the first occurrence of `x`, as `list.remove` finds it. */
  function Position<T(==)>(s: seq<T>, x: T): (r: Option<nat>)
    ensures r.None? <==> x !in s
    ensures r.Some? ==> r.value < |s| && s[r.value] == x && x !in s[..r.value]
  {
    if s == [] then None
    else if s[0] == x then Some(0)
    else match Position(s[1..], x)
      case None => None
      case Some(i) =>
        assert s[..i + 1] == [s[0]] + s[1..][..i];
        Some(i + 1)
  }

  /** `list.remove(x)`: the first occurrence removed, or ValueError when there is none. */
  function Removed<T(==)>(s: seq<T>, x: T): (r: Result<seq<T>>)
    ensures r.Err? <==> x !in s
    ensures r.Err? ==> r.error == ValueError
    ensures r.Ok? ==> |r.value| == |s| - 1 && multiset(r.value) == multiset(s) - multiset{x}
    ensures r.Ok? ==> Position(s, x).Some?
    ensures r.Ok? ==> r.value == s[..Position(s, x).value] + s[Position(s, x).value + 1..]
  {
    match Position(s, x)
    case None => Err(ValueError)
    case Some(i) =>
      assert s == s[..i] + [s[i]] + s[i + 1..];
      Ok(s[..i] + s[i + 1..])
  }

  /** Unbinding what was just bound leaves the same bindings (the same list if it was not bound before). */
  lemma UnbindUndoesBind<T>(s: seq<T>, x: T)
    ensures Removed(s + [x], x).Ok?
    ensures multiset(Removed(s + [x], x).value) == multiset(s)
    ensures x !in s ==> Removed(s + [x], x).value == s
  {
    assert (s + [x])[|s|] == x;
    if x !in s {
      assert (s + [x])[..|s|] == s;
      assert Position(s + [x], x) == Some(|s|);
    }
  }

  // ---------------------------------------------------------------------------
  // The module state as an object

  class ChatBox {
    var hotkeys: seq<(string, Callback)>
    var messageQueue: seq<string>
    var chatBoxEvents: seq<KeyEvent>
    var installed: seq<Hook>
    var outputs: seq<Output>
    var log: seq<Emission>

    function Snapshot(): Controller
      reads this
    {
      Controller(hotkeys, messageQueue, chatBoxEvents, installed, outputs, log)
    }

    /** The module as imported: empty lists, nothing hooked, nothing typed or emitted. */
    constructor ()
      ensures Snapshot() == Controller([], [], [], [], [], [])
    {
      hotkeys := [];
      messageQueue := [];
      chatBoxEvents := [];
      installed := [];
      outputs := [];
      log := [];
    }

    /** `bind_hotkey`: appended, even when the same pair is already bound. */
    method Bind(combination: string, callback: Callback)
      modifies this
      ensures hotkeys == old(hotkeys) + [(combination, callback)]
      ensures Snapshot() == old(Snapshot()).(hotkeys := hotkeys)
    {
      hotkeys := hotkeys + [(combination, callback)];
    }

    /** `unbind_hotkey`: the first matching pair removed, or ValueError with nothing changed. */
    method Unbind(combination: string, callback: Callback) returns (error: Option<Error>)
      modifies this
      ensures match Removed(old(hotkeys), (combination, callback))
        case Err(e) => error == Some(e) && hotkeys == old(hotkeys)
        case Ok(rest) => error == None && hotkeys == rest
      ensures Snapshot() == old(Snapshot()).(hotkeys := hotkeys)
    {
      match Removed(hotkeys, (combination, callback)) {
        case Err(e) =>
          error := Some(e);
        case Ok(rest) =>
          hotkeys := rest;
          error := None;
      }
    }

    /** `send_message`: the keys and text typed into the chat box. */
    method SendMessage(message: string, private: bool, env: Env)
      modifies this
      ensures Snapshot() == old(Snapshot()).(outputs := old(outputs) + MessageKeys(message, private, env.openHotkey))
    {
      var text := Ascii(message);
      outputs := outputs + [Send(env.openHotkey)];
      if private {
        outputs := outputs + [Send(KeyChangeChatChannel)];
        text := EchoPreamble + text;
      }
      outputs := outputs + [Write(text), Send(KeySendMessage)];
    }

    /** `queue_display_text`: shown at once when the game is in front with the chat box closed, otherwise queued at the end. */
    method QueueDisplayText(text: string, chatBoxOpen: bool, env: Env)
      modifies this
      ensures env.foreground && !chatBoxOpen ==>
        Snapshot() == old(Snapshot()).(outputs := old(outputs) + MessageKeys(text, true, env.openHotkey))
      ensures !(env.foreground && !chatBoxOpen) ==>
        Snapshot() == old(Snapshot()).(messageQueue := old(messageQueue) + [text])
    {
      if env.foreground && !chatBoxOpen {
        SendMessage(text, true, env);
      } else {
        messageQueue := messageQueue + [text];
      }
    }

    /** `while message_queue: send_message(message_queue.pop(0))` */
    method DrainQueue(env: Env)
      modifies this
      ensures Snapshot() == old(Snapshot()).(messageQueue := [], outputs := old(outputs) + Sends(old(messageQueue), env.openHotkey))
    {
      ghost var queue := messageQueue;
      ghost var k := 0;
      while messageQueue != []
        invariant 0 <= k <= |queue| && messageQueue == queue[k..]
        invariant outputs == old(outputs) + Sends(queue[..k], env.openHotkey)
        invariant hotkeys == old(hotkeys) && chatBoxEvents == old(chatBoxEvents)
        invariant installed == old(installed) && log == old(log)
        decreases |messageQueue|
      {
        var message := messageQueue[0];
        messageQueue := messageQueue[1..];
        SendMessage(message, true, env);
        assert queue[..k + 1][..k] == queue[..k];
        k := k + 1;
      }
      assert queue[..k] == queue;
    }

    /**
     * `terminate_hotkey_hooks`: `unhook_all` runs in the `finally`, so every hook is removed
     * whether or not `remove_all_hotkeys` raised before it.
     */
    method Terminate()
      modifies this
      ensures Snapshot() == old(Snapshot()).(installed := [])
    {
      installed := [];
    }

    /** `collect_chat_box_events`: a keystroke kept only while the game is in front. */
    method CollectEvent(event: KeyEvent, foreground: bool)
      modifies this
      ensures foreground ==> Snapshot() == old(Snapshot()).(chatBoxEvents := old(chatBoxEvents) + [event])
      ensures !foreground ==> Snapshot() == old(Snapshot())
    {
      if foreground {
        chatBoxEvents := chatBoxEvents + [event];
      }
    }

    method OnChatBoxOpened(env: Env, attempts: seq<Attempt>)
      modifies this
      ensures Snapshot() == Opened(old(Snapshot()), env, attempts)
      decreases |attempts|, 0
    {
      if env.foreground && attempts != [] {
        var open := WaitUntil(attempts[0].polls, env.budget);
        if open {
          Terminate();
          installed := installed + [Capture];
          installed := installed + [Hotkey(KeySendMessage, Close(false))];
          installed := installed + [Hotkey(KeyCloseChatBox, Close(true))];
          log := log + [Emission(ChatBoxOpened, [])];
        } else {
          InitialiseHotkeyHooks(env, attempts[0].thenOpen, attempts[1..]);
        }
      }
    }

    method OnChatBoxClosed(env: Env, cancelled: bool, attempts: seq<Attempt>)
      modifies this
      ensures Snapshot() == Closed(old(Snapshot()), env, cancelled, attempts)
      decreases |attempts|, 0
    {
      if env.foreground && attempts != [] {
        var closed := WaitUntil(Negated(attempts[0].polls), env.budget);
        if closed {
          ghost var start := Snapshot();
          if env.characterLoaded {
            DrainQueue(env);
          }
          var contents := env.contentsOf(chatBoxEvents);
          log := log + [Emission(ChatBoxClosed, [("message_sent", SentValue(cancelled, contents))])];
          if !cancelled && contents != [] {
            log := log + [Emission(MessageSent, [("message", Str(contents))])];
          }
          Terminate();
          installed := installed + [Hotkey(env.openHotkey, Open)];
          chatBoxEvents := [];
          assert Snapshot() == ConfirmClose(start, env, cancelled);
        } else {
          InitialiseHotkeyHooks(env, attempts[0].thenOpen, attempts[1..]);
        }
      }
    }

    /** `initialise_hotkey_hooks`, given the chat-box state it reads. */
    method InitialiseHotkeyHooks(env: Env, open: bool, attempts: seq<Attempt>)
      modifies this
      ensures Snapshot() == Initialised(old(Snapshot()), env, open, attempts)
      decreases |attempts|, 1
    {
      if open {
        OnChatBoxOpened(env, attempts);
      } else {
        OnChatBoxClosed(env, false, attempts);
      }
      ghost var handled := Snapshot();
      var i := 0;
      while i < |hotkeys|
        invariant 0 <= i <= |hotkeys|
        invariant Snapshot() == handled.(installed := handled.installed + HotkeyHooks(hotkeys[..i]))
      {
        assert HotkeyHooks(hotkeys[..i + 1]) == HotkeyHooks(hotkeys[..i]) + [Hotkey(hotkeys[i].0, Run(hotkeys[i].1))];
        installed := installed + [Hotkey(hotkeys[i].0, Run(hotkeys[i].1))];
        i := i + 1;
      }
      assert hotkeys[..i] == hotkeys;
    }
  }

  // ---------------------------------------------------------------------------
  // Wiring to the observer's signals

  /** The module's two hook handlers as the signal bus sees them. */
  const InitialiseHotkeyHooksCallback := Callback("initialise_hotkey_hooks")
  const TerminateHotkeyHooksCallback := Callback("terminate_hotkey_hooks")

  /**
   * What importing the module does: the game coming to the foreground installs the hooks,
   * and its going to the background releases them.
   */
  method Wire(switchedToForeground: Signal, switchedToBackground: Signal)
    requires switchedToForeground != switchedToBackground
    modifies switchedToForeground, switchedToBackground
    ensures switchedToForeground.subscribers == old(switchedToForeground.subscribers) + {InitialiseHotkeyHooksCallback}
    ensures switchedToBackground.subscribers == old(switchedToBackground.subscribers) + {TerminateHotkeyHooksCallback}
  {
    switchedToForeground.Connect(InitialiseHotkeyHooksCallback);
    switchedToBackground.Connect(TerminateHotkeyHooksCallback);
  }
}
