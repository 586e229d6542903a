/**
 * The game-state observer of flair/inspect/state.py.
 *
 * A `state_variable` is a descriptor holding a declared default, a `passive` flag and
 * the last value written (`last`); reading it while the game window is absent gives the
 * default, reading a passive one gives `last`, and reading any other runs its getter.
 * Writing a value different from `last` runs the variable's change reaction and then
 * records the value. `FreelancerState.refresh` writes every variable with its own read,
 * so each change is detected, reacted to and (mostly) published as an event.
 *
 * What the getters observe of the outside world during one refresh is an `Env`: the
 * window, the process handle, and the values in game memory and in the registry.
 */
module State {
  import opened Wrappers
  import opened Events
  import ProcessPackage

  type Scalar = ProcessPackage.Scalar

  /** `FreelancerState._process`: the int 0 it starts as, or what `get_process` returned. */
  datatype Handle = IntHandle(n: int) | OsHandle(h: int)

  /** What a refresh does to the outside world: an event emitted, or the process handle closed. */
  datatype Effect = Emitted(emission: Emission) | Closed(handle: Handle)

  /** One snapshot of what the getters read. */
  datatype Env = Env(
    present: bool,              // window.is_present()
    foreground: bool,           // window.is_foreground()
    process: Handle,            // process.get_process()
    chatBox: bool,              // process.get_chat_box_state
    characterLoaded: bool,      // process.get_character_loaded
    name: string,               // process.get_name
    credits: Scalar,            // process.get_credits: an int, or the object of a failed read
    docked: bool,               // process.get_docked
    mouseover: string,          // process.get_mouseover
    account: Option<string>)    // storage.get_active_account_name (None when not found)

  /** A state variable: its declared default, whether it is passive, and its last written value. */
  datatype Var<T(==)> = Var(default: T, passive: bool, last: T) {
    /** `__get__` given whether the window is present and what the getter would return. */
    function Get(present: bool, computed: T): T {
      if !present then default else if passive then last else computed
    }
  }

  function Declared<T(==)>(initially: T, passive: bool): (v: Var<T>)
    ensures v.default == initially && v.last == initially && v.passive == passive
  {
    Var(initially, passive, initially)
  }

  /** Reading gives the default while absent, `last` for a passive variable, the getter's value otherwise. */
  lemma ReadRules<T>(v: Var<T>, present: bool, computed: T)
    ensures !present ==> v.Get(present, computed) == v.default
    ensures present && v.passive ==> v.Get(present, computed) == v.last
    ensures present && !v.passive ==> v.Get(present, computed) == computed
  {
  }

  /** Everything the observer holds: the known names, the process handle, the effects so far, and each variable. */
  datatype Obs = Obs(
    systems: set<string>,
    bases: set<string>,
    process: Handle,
    log: seq<Effect>,
    running: Var<bool>,
    foreground: Var<bool>,
    chatBox: Var<bool>,
    account: Var<Option<string>>,
    mouseover: Var<string>,
    characterLoaded: Var<bool>,
    name: Var<Option<string>>,
    credits: Var<Option<Scalar>>,
    system: Var<Option<string>>,
    base: Var<Option<string>>,
    docked: Var<Option<bool>>)

  /** The observer before its first refresh: every variable at its declared initial value, `_process` the int 0. */
  function Initial(systems: set<string>, bases: set<string>): (o: Obs)
    ensures o.systems == systems && o.bases == bases
    ensures o.log == [] && o.process == IntHandle(0) && AsDeclared(o) && AtDefaults(o)
  {
    Obs(systems, bases, IntHandle(0), [],
      Declared(false, false), Declared(false, false), Declared(false, false),
      Declared(Some(""), false), Declared("", false), Declared(false, false),
      Declared(None, false), Declared(None, false),
      Declared(None, true), Declared(None, true), Declared(None, false))
  }

  predicate DeclaredAs<T(==)>(v: Var<T>, initially: T, passive: bool) {
    v.default == initially && v.passive == passive
  }

  /** Every variable's last value is its default, as `state_variable` sets `last = initially`. */
  predicate AtDefaults(o: Obs) {
    o.running.last == o.running.default && o.foreground.last == o.foreground.default &&
    o.chatBox.last == o.chatBox.default && o.account.last == o.account.default &&
    o.mouseover.last == o.mouseover.default && o.characterLoaded.last == o.characterLoaded.default &&
    o.name.last == o.name.default && o.credits.last == o.credits.default &&
    o.system.last == o.system.default && o.base.last == o.base.default && o.docked.last == o.docked.default
  }

  /** Each variable has the default and passivity its declaration gives it (writes change only `last`). */
  predicate AsDeclared(o: Obs) {
    DeclaredAs(o.running, false, false) && DeclaredAs(o.foreground, false, false) &&
    DeclaredAs(o.chatBox, false, false) && DeclaredAs(o.account, Some(""), false) &&
    DeclaredAs(o.mouseover, "", false) && DeclaredAs(o.characterLoaded, false, false) &&
    DeclaredAs(o.name, None, false) && DeclaredAs(o.credits, None, false) &&
    DeclaredAs(o.system, None, true) && DeclaredAs(o.base, None, true) && DeclaredAs(o.docked, None, false)
  }

  // ---------------------------------------------------------------------------
  // Getters

  function ReadRunning(o: Obs, env: Env): bool {
    o.running.Get(env.present, env.present)
  }

  function ReadForeground(o: Obs, env: Env): bool {
    o.foreground.Get(env.present, if ReadRunning(o, env) then env.foreground else false)
  }

  function ReadChatBox(o: Obs, env: Env): bool {
    o.chatBox.Get(env.present, env.chatBox)
  }

  function ReadAccount(o: Obs, env: Env): Option<string> {
    o.account.Get(env.present, env.account)
  }

  function ReadMouseover(o: Obs, env: Env): string {
    o.mouseover.Get(env.present, env.mouseover)
  }

  function ReadCharacterLoaded(o: Obs, env: Env): bool {
    o.characterLoaded.Get(env.present, env.characterLoaded)
  }

  function ReadName(o: Obs, env: Env): Option<string> {
    o.name.Get(env.present, if ReadCharacterLoaded(o, env) then Some(env.name) else None)
  }

  function ReadCredits(o: Obs, env: Env): Option<Scalar> {
    o.credits.Get(env.present, if ReadCharacterLoaded(o, env) then Some(env.credits) else None)
  }

  function ReadDocked(o: Obs, env: Env): Option<bool> {
    o.docked.Get(env.present, if ReadCharacterLoaded(o, env) then Some(env.docked) else None)
  }

  /** `system` and `base` are passive: their getters return None and are never consulted while present. */
  function ReadSystem(o: Obs, env: Env): Option<string> {
    o.system.Get(env.present, None)
  }

  function ReadBase(o: Obs, env: Env): Option<string> {
    o.base.Get(env.present, None)
  }

  // ---------------------------------------------------------------------------
  // Writes (`__set__`) with each variable's change reaction

  function OptStr(v: Option<string>): Value {
    match v
    case Some(s) => Str(s)
    case None => Nothing
  }

  function OptScalar(v: Option<Scalar>): Value {
    match v
    case Some(Number(i)) => Int(i)
    case Some(CObject) => CData
    case None => Nothing
  }

  /** `new != last` for the credits: None equals None, and a failed read's object equals nothing. */
  predicate CreditsDiffer(a: Option<Scalar>, b: Option<Scalar>) {
    if a.Some? && b.Some? then !ProcessPackage.PyEq(a.value, b.value) else a != b
  }

  function Emit(o: Obs, signal: SignalName, payload: Payload): Obs {
    o.(log := o.log + [Emitted(Emission(signal, payload))])
  }

  /** `if self._process and type(self._process) is not int`: a non-zero OS handle. */
  predicate Closable(h: Handle) {
    h.OsHandle? && h.h != 0
  }

  function WriteRunning(o: Obs, env: Env, value: bool): Obs {
    if value == o.running.last then o
    else
      var reacted :=
        if value then Emit(o.(process := env.process), FreelancerStarted, [])
        else
          var closed := if Closable(o.process) then o.(log := o.log + [Closed(o.process)]) else o;
          Emit(closed, FreelancerStopped, []);
      reacted.(running := reacted.running.(last := value))
  }

  function WriteForeground(o: Obs, value: bool): Obs {
    if value == o.foreground.last then o
    else
      var reacted := Emit(o, if value then SwitchedToForeground else SwitchedToBackground, []);
      reacted.(foreground := reacted.foreground.(last := value))
  }

  /** The chat box's reaction does nothing: its events come from the input module. */
  function WriteChatBox(o: Obs, value: bool): Obs {
    if value == o.chatBox.last then o
    else o.(chatBox := o.chatBox.(last := value))
  }

  function WriteAccount(o: Obs, value: Option<string>): Obs {
    if value == o.account.last then o
    else
      var reacted := Emit(o, AccountChanged, [("account", OptStr(value))]);
      reacted.(account := reacted.account.(last := value))
  }

  function WriteSystem(o: Obs, value: Option<string>): Obs {
    if value == o.system.last then o
    else
      var reacted := Emit(o, SystemChanged, [("system", OptStr(value))]);
      reacted.(system := reacted.system.(last := value))
  }

  /** `base` has no change reaction. */
  function WriteBase(o: Obs, value: Option<string>): Obs {
    if value == o.base.last then o
    else o.(base := o.base.(last := value))
  }

  function WriteMouseover(o: Obs, env: Env, value: string): Obs {
    if value == o.mouseover.last then o
    else
      var reacted := if value in o.systems then WriteSystem(o, Some(value)) else o;
      reacted.(mouseover := reacted.mouseover.(last := value))
  }

  function WriteCharacterLoaded(o: Obs, env: Env, value: bool): Obs {
    if value == o.characterLoaded.last then o
    else
      var reacted :=
        if value then WriteAccount(o, ReadAccount(o, env))
        else WriteBase(WriteSystem(o, None), None);
      reacted.(characterLoaded := reacted.characterLoaded.(last := value))
  }

  function WriteName(o: Obs, value: Option<string>): Obs {
    if value == o.name.last then o
    else
      var reacted := Emit(o, CharacterChanged, [("name", OptStr(value))]);
      reacted.(name := reacted.name.(last := value))
  }

  /** A failed read never equals `last`, so writing it always reacts, even over an earlier failed read. */
  function WriteCredits(o: Obs, value: Option<Scalar>): Obs {
    if !CreditsDiffer(value, o.credits.last) then o
    else
      var reacted := Emit(o, CreditsChanged, [("balance", OptScalar(value))]);
      reacted.(credits := reacted.credits.(last := value))
  }

  /**
   * Docking with the live mouseover a known base records it as `base` and emits
   * `docked(base)`; any falsy value (False or None) emits `undocked`.
   */
  function WriteDocked(o: Obs, env: Env, value: Option<bool>): Obs {
    if value == o.docked.last then o
    else
      var reacted :=
        if value == Some(true) && ReadMouseover(o, env) in o.bases then
          var based := WriteBase(o, Some(ReadMouseover(o, env)));
          Emit(based, Docked, [("base", OptStr(ReadBase(based, env)))])
        else if value != Some(true) then Emit(o, Undocked, [])
        else o;
      reacted.(docked := reacted.docked.(last := value))
  }

  // ---------------------------------------------------------------------------
  // refresh

  /** The variables refreshed only while the game runs, in the order `refresh` writes them. */
  function RefreshRunning(o: Obs, env: Env): Obs {
    var o3 := WriteCharacterLoaded(o, env, ReadCharacterLoaded(o, env));
    var o4 := WriteName(o3, ReadName(o3, env));
    var o5 := WriteCredits(o4, ReadCredits(o4, env));
    var o6 := WriteDocked(o5, env, ReadDocked(o5, env));
    var o7 := WriteMouseover(o6, env, ReadMouseover(o6, env));
    WriteChatBox(o7, ReadChatBox(o7, env))
  }

  /** `FreelancerState.refresh`: `running`, then `foreground`, then the rest only if running. */
  function Refreshed(o: Obs, env: Env): Obs {
    var o1 := WriteRunning(o, env, ReadRunning(o, env));
    var o2 := WriteForeground(o1, ReadForeground(o1, env));
    if ReadRunning(o2, env) then RefreshRunning(o2, env) else o2
  }

  // ---------------------------------------------------------------------------
  // Properties of reads, writes and refresh

  /** While the window is absent every variable reads as its declared default. */
  lemma AbsentReadsGiveDefaults(o: Obs, env: Env)
    requires !env.present
    ensures ReadRunning(o, env) == o.running.default && ReadForeground(o, env) == o.foreground.default
    ensures ReadChatBox(o, env) == o.chatBox.default && ReadAccount(o, env) == o.account.default
    ensures ReadMouseover(o, env) == o.mouseover.default && ReadCharacterLoaded(o, env) == o.characterLoaded.default
    ensures ReadName(o, env) == o.name.default && ReadCredits(o, env) == o.credits.default
    ensures ReadDocked(o, env) == o.docked.default
    ensures ReadSystem(o, env) == o.system.default && ReadBase(o, env) == o.base.default
  {
  }

  /** `system` and `base` are declared passive: while present they read as the last value written. */
  lemma PassiveReadsGiveLast(o: Obs, env: Env)
    requires env.present && AsDeclared(o)
    ensures ReadSystem(o, env) == o.system.last && ReadBase(o, env) == o.base.last
  {
  }

  /** Dependent getters: `foreground` is False unless running, and name, credits and docked are None unless a character is loaded. */
  lemma DependentReadsDefault(o: Obs, env: Env)
    requires AsDeclared(o)
    ensures !ReadRunning(o, env) ==> !ReadForeground(o, env)
    ensures !ReadCharacterLoaded(o, env) ==> ReadName(o, env) == None && ReadCredits(o, env) == None && ReadDocked(o, env) == None
  {
  }

  /** Writing the value a variable already holds does nothing: no reaction, no event. */
  lemma EqualWriteIsNoOp(o: Obs, env: Env)
    ensures WriteRunning(o, env, o.running.last) == o && WriteForeground(o, o.foreground.last) == o
    ensures WriteChatBox(o, o.chatBox.last) == o && WriteAccount(o, o.account.last) == o
    ensures WriteSystem(o, o.system.last) == o && WriteBase(o, o.base.last) == o
    ensures WriteMouseover(o, env, o.mouseover.last) == o
    ensures WriteCharacterLoaded(o, env, o.characterLoaded.last) == o
    ensures WriteName(o, o.name.last) == o && WriteDocked(o, env, o.docked.last) == o
    ensures o.credits.last != Some(ProcessPackage.CObject) ==> WriteCredits(o, o.credits.last) == o
  {
  }

  /**
   * Writing a failed credits read always reacts, even over the previous failed read:
   * `credits_changed` carries the ctypes object and the object is recorded as `last`.
   */
  lemma FailedCreditsReadPublishes(o: Obs)
    ensures WriteCredits(o, Some(ProcessPackage.CObject))
      == Emit(o, CreditsChanged, [("balance", CData)]).(credits := o.credits.(last := Some(ProcessPackage.CObject)))
  {
  }

  /**
   * A changing write publishes the NEW value (the reaction sees the value being written),
   * and afterwards the variable holds it.
   */
  lemma ChangingWritePublishesNewValue(o: Obs, env: Env, name: Option<string>, credits: Option<Scalar>,
                                       account: Option<string>, system: Option<string>)
    ensures name != o.name.last ==> (WriteName(o, name).name.last == name &&
      WriteName(o, name).log == o.log + [Emitted(Emission(CharacterChanged, [("name", OptStr(name))]))])
    ensures CreditsDiffer(credits, o.credits.last) ==> (WriteCredits(o, credits).credits.last == credits &&
      WriteCredits(o, credits).log == o.log + [Emitted(Emission(CreditsChanged, [("balance", OptScalar(credits))]))])
    ensures account != o.account.last ==> (WriteAccount(o, account).account.last == account &&
      WriteAccount(o, account).log == o.log + [Emitted(Emission(AccountChanged, [("account", OptStr(account))]))])
    ensures system != o.system.last ==> (WriteSystem(o, system).system.last == system &&
      WriteSystem(o, system).log == o.log + [Emitted(Emission(SystemChanged, [("system", OptStr(system))]))])
  {
  }

  /** The game starting records the new process handle; stopping closes a non-zero OS handle before `freelancer_stopped`. */
  lemma RunningTransitions(o: Obs, env: Env)
    ensures !o.running.last ==> (WriteRunning(o, env, true).process == env.process &&
      WriteRunning(o, env, true).log == o.log + [Emitted(Emission(FreelancerStarted, []))])
    ensures o.running.last && Closable(o.process) ==>
      WriteRunning(o, env, false).log == o.log + [Closed(o.process), Emitted(Emission(FreelancerStopped, []))]
    ensures o.running.last && !Closable(o.process) ==>
      WriteRunning(o, env, false).log == o.log + [Emitted(Emission(FreelancerStopped, []))]
  {
  }

  /**
   * Docking while the mouse is over a known base records that base and emits `docked` with it;
   * a change to anything but True emits `undocked`; docking elsewhere emits nothing.
   */
  lemma DockingRule(o: Obs, env: Env, value: Option<bool>)
    requires value != o.docked.last
    requires AsDeclared(o) && env.present
    ensures var m := ReadMouseover(o, env); var d := WriteDocked(o, env, value);
      (value == Some(true) && m in o.bases ==>
        d.base.last == Some(m) && d.log == o.log + [Emitted(Emission(Docked, [("base", Str(m))]))]) &&
      (value != Some(true) ==>
        d.base == o.base && d.log == o.log + [Emitted(Emission(Undocked, []))]) &&
      (value == Some(true) && m !in o.bases ==> d.base == o.base && d.log == o.log)
  {
  }

  // Settled states and idempotence

  /** Every refreshed variable already holds what reading it under `env` gives. */
  predicate Settled(o: Obs, env: Env) {
    o.running.last == ReadRunning(o, env) &&
    o.foreground.last == ReadForeground(o, env) &&
    (ReadRunning(o, env) ==>
      o.characterLoaded.last == ReadCharacterLoaded(o, env) &&
      o.name.last == ReadName(o, env) &&
      !CreditsDiffer(o.credits.last, ReadCredits(o, env)) &&
      o.docked.last == ReadDocked(o, env) &&
      o.mouseover.last == ReadMouseover(o, env) &&
      o.chatBox.last == ReadChatBox(o, env))
  }

  /** Refreshing a settled observer changes nothing and emits nothing. */
  lemma SettledRefreshIsNoOp(o: Obs, env: Env)
    requires Settled(o, env)
    ensures Refreshed(o, env) == o
  {
    EqualWriteIsNoOp(o, env);
  }

  /** `running` and `foreground`, which the writes made while running leave alone, agree. */
  predicate RunningVarsAgree(a: Obs, b: Obs) {
    a.running == b.running && a.foreground == b.foreground
  }

  lemma LoadedWriteFrame(o: Obs, env: Env, v: bool)
    ensures var r := WriteCharacterLoaded(o, env, v);
      RunningVarsAgree(r, o) && r.characterLoaded == o.characterLoaded.(last := v) &&
      r.name == o.name && r.credits == o.credits && r.docked == o.docked && r.mouseover == o.mouseover && r.chatBox == o.chatBox
  {
  }

  lemma NameWriteFrame(o: Obs, v: Option<string>)
    ensures var r := WriteName(o, v);
      RunningVarsAgree(r, o) && r.characterLoaded == o.characterLoaded && r.name == o.name.(last := v) &&
      r.credits == o.credits && r.docked == o.docked && r.mouseover == o.mouseover && r.chatBox == o.chatBox
  {
  }

  lemma CreditsWriteFrame(o: Obs, v: Option<Scalar>)
    ensures var r := WriteCredits(o, v);
      RunningVarsAgree(r, o) && r.characterLoaded == o.characterLoaded && r.name == o.name &&
      r.credits == o.credits.(last := v) && r.docked == o.docked && r.mouseover == o.mouseover && r.chatBox == o.chatBox
  {
  }

  lemma DockedWriteFrame(o: Obs, env: Env, v: Option<bool>)
    ensures var r := WriteDocked(o, env, v);
      RunningVarsAgree(r, o) && r.characterLoaded == o.characterLoaded && r.name == o.name &&
      r.credits == o.credits && r.docked == o.docked.(last := v) && r.mouseover == o.mouseover && r.chatBox == o.chatBox
  {
  }

  lemma MouseoverWriteFrame(o: Obs, env: Env, v: string)
    ensures var r := WriteMouseover(o, env, v);
      RunningVarsAgree(r, o) && r.characterLoaded == o.characterLoaded && r.name == o.name &&
      r.credits == o.credits && r.docked == o.docked && r.mouseover == o.mouseover.(last := v) && r.chatBox == o.chatBox
  {
  }

  lemma ChatBoxWriteFrame(o: Obs, v: bool)
    ensures var r := WriteChatBox(o, v);
      RunningVarsAgree(r, o) && r.characterLoaded == o.characterLoaded && r.name == o.name &&
      r.credits == o.credits && r.docked == o.docked && r.mouseover == o.mouseover && r.chatBox == o.chatBox.(last := v)
  {
  }

  /** The writes made while running never touch the process handle. */
  lemma RunningWritesKeepProcess(o: Obs, env: Env)
    ensures RefreshRunning(o, env).process == o.process
  {
    var o3 := WriteCharacterLoaded(o, env, ReadCharacterLoaded(o, env));
    var o4 := WriteName(o3, ReadName(o3, env));
    var o5 := WriteCredits(o4, ReadCredits(o4, env));
    var o6 := WriteDocked(o5, env, ReadDocked(o5, env));
    var o7 := WriteMouseover(o6, env, ReadMouseover(o6, env));
    assert o3.process == o.process && o4.process == o.process && o5.process == o.process;
    assert o6.process == o.process && o7.process == o.process;
  }

  /** After the writes made while running, each of them holds what reading it gives, and `running` and `foreground` are untouched. */
  lemma RunningWritesSettle(o: Obs, env: Env)
    ensures var r := RefreshRunning(o, env);
      RunningVarsAgree(r, o) &&
      r.characterLoaded.last == ReadCharacterLoaded(r, env) && r.name.last == ReadName(r, env) &&
      r.credits.last == ReadCredits(r, env) && r.docked.last == ReadDocked(r, env) &&
      r.mouseover.last == ReadMouseover(r, env) && r.chatBox.last == ReadChatBox(r, env)
  {
    var o3 := WriteCharacterLoaded(o, env, ReadCharacterLoaded(o, env));
    LoadedWriteFrame(o, env, ReadCharacterLoaded(o, env));
    var o4 := WriteName(o3, ReadName(o3, env));
    NameWriteFrame(o3, ReadName(o3, env));
    var o5 := WriteCredits(o4, ReadCredits(o4, env));
    CreditsWriteFrame(o4, ReadCredits(o4, env));
    var o6 := WriteDocked(o5, env, ReadDocked(o5, env));
    DockedWriteFrame(o5, env, ReadDocked(o5, env));
    var o7 := WriteMouseover(o6, env, ReadMouseover(o6, env));
    MouseoverWriteFrame(o6, env, ReadMouseover(o6, env));
    var r := WriteChatBox(o7, ReadChatBox(o7, env));
    ChatBoxWriteFrame(o7, ReadChatBox(o7, env));
    assert r == RefreshRunning(o, env);
  }

  /**
   * After a refresh the observer is settled, so refreshing again with the same observations
   * is a no-op, unless the credits it now reads are the object of a failed read.
   */
  lemma RefreshIsIdempotent(o: Obs, env: Env)
    ensures ReadCredits(Refreshed(o, env), env) != Some(ProcessPackage.CObject) ==>
      Settled(Refreshed(o, env), env) && Refreshed(Refreshed(o, env), env) == Refreshed(o, env)
  {
    var r := Refreshed(o, env);
    if ReadCredits(r, env) != Some(ProcessPackage.CObject) {
      RefreshSettles(o, env);
      SettledRefreshIsNoOp(r, env);
    }
  }

  /** A refresh leaves the observer settled unless it reads a failed credits read. */
  lemma RefreshSettles(o: Obs, env: Env)
    requires ReadCredits(Refreshed(o, env), env) != Some(ProcessPackage.CObject)
    ensures Settled(Refreshed(o, env), env)
  {
    var o1 := WriteRunning(o, env, ReadRunning(o, env));
    var o2 := WriteForeground(o1, ReadForeground(o1, env));
    assert o2.running.last == ReadRunning(o2, env) && o2.foreground.last == ReadForeground(o2, env);
    if ReadRunning(o2, env) {
      RunningWritesSettle(o2, env);
      var r := RefreshRunning(o2, env);
      assert Refreshed(o, env) == r;
      WrittenVariablesSettle(r, env);
    }
  }

  /** Variables that hold what they read are settled, given credits that are not a failed read's object. */
  lemma WrittenVariablesSettle(r: Obs, env: Env)
    requires r.running.last == ReadRunning(r, env) && r.foreground.last == ReadForeground(r, env)
    requires r.characterLoaded.last == ReadCharacterLoaded(r, env) && r.name.last == ReadName(r, env)
    requires r.credits.last == ReadCredits(r, env) != Some(ProcessPackage.CObject)
    requires r.docked.last == ReadDocked(r, env) && r.mouseover.last == ReadMouseover(r, env)
    requires r.chatBox.last == ReadChatBox(r, env)
    ensures Settled(r, env)
  {
  }


  /**
   * When the credits a refreshed, running observer reads are the object of a failed read,
   * the next refresh emits `credits_changed` again and changes nothing else.
   */
  lemma FailedCreditsReadRepublishes(o: Obs, env: Env)
    requires ReadRunning(Refreshed(o, env), env)
    requires ReadCredits(Refreshed(o, env), env) == Some(ProcessPackage.CObject)
    ensures var r := Refreshed(o, env);
      Refreshed(r, env) == Emit(r, CreditsChanged, [("balance", CData)])
  {
    var o1 := WriteRunning(o, env, ReadRunning(o, env));
    var o2 := WriteForeground(o1, ReadForeground(o1, env));
    assert o2.running.last == ReadRunning(o2, env) && o2.foreground.last == ReadForeground(o2, env);
    if ReadRunning(o2, env) {
      RunningWritesSettle(o2, env);
      ResettleAfterFailedCredits(Refreshed(o, env), env);
    }
  }

  /** The second refresh of `FailedCreditsReadRepublishes`: only the credits write reacts. */
  lemma ResettleAfterFailedCredits(r: Obs, env: Env)
    requires ReadRunning(r, env) && r.running.last == ReadRunning(r, env) && r.foreground.last == ReadForeground(r, env)
    requires r.characterLoaded.last == ReadCharacterLoaded(r, env) && r.name.last == ReadName(r, env)
    requires r.credits.last == ReadCredits(r, env) == Some(ProcessPackage.CObject)
    requires r.docked.last == ReadDocked(r, env) && r.mouseover.last == ReadMouseover(r, env)
    requires r.chatBox.last == ReadChatBox(r, env)
    ensures Refreshed(r, env) == Emit(r, CreditsChanged, [("balance", CData)])
  {
    EqualWriteIsNoOp(r, env);
    assert WriteForeground(WriteRunning(r, env, ReadRunning(r, env)), ReadForeground(r, env)) == r;
    var e := Emit(r, CreditsChanged, [("balance", CData)]);
    FailedCreditsReadPublishes(r);
    assert WriteCredits(r, ReadCredits(r, env)) == e;
    EqualWriteIsNoOp(e, env);
    assert ReadDocked(e, env) == e.docked.last && ReadMouseover(e, env) == e.mouseover.last;
    assert ReadChatBox(e, env) == e.chatBox.last;
    assert RefreshRunning(r, env) == e;
  }

  /** The constructed observer satisfies the invariant, so every state reached by refreshing does. */
  lemma InitialIsGood(systems: set<string>, bases: set<string>)
    ensures Good(Initial(systems, bases))
  {
  }

  /** Refreshing while the window is absent only resets `running` and `foreground` (and reacts to that). */
  lemma AbsentRefresh(o: Obs, env: Env)
    requires AsDeclared(o) && !env.present
    ensures Refreshed(o, env) == WriteForeground(WriteRunning(o, env, false), false)
  {
  }

  /** An observer constructed while no game window exists changes nothing and emits nothing in its first refresh. */
  lemma InitialAbsentRefreshIsNoOp(systems: set<string>, bases: set<string>, env: Env)
    requires !env.present
    ensures Refreshed(Initial(systems, bases), env) == Initial(systems, bases)
  {
    AbsentRefresh(Initial(systems, bases), env);
  }

  /**
   * An observer constructed while the game runs has already published `freelancer_started`
   * and recorded the process handle when the constructor returns.
   */
  lemma ConstructedWhileRunning(systems: set<string>, bases: set<string>, env: Env)
    requires env.present
    ensures var r := Refreshed(Initial(systems, bases), env);
      r.process == env.process && r.running.last && |r.log| >= 1 && r.log[0] == Emitted(Emission(FreelancerStarted, []))
  {
    InitialIsGood(systems, bases);
    StartingRefresh(Initial(systems, bases), env);
  }

  /** A refresh that finds the game newly running records its handle and first emits `freelancer_started`. */
  lemma StartingRefresh(o: Obs, env: Env)
    requires Good(o) && !o.running.last && env.present
    ensures var r := Refreshed(o, env);
      r.process == env.process && r.running.last && |r.log| > |o.log| &&
      r.log[|o.log|] == Emitted(Emission(FreelancerStarted, []))
  {
    var o1 := WriteRunning(o, env, ReadRunning(o, env));
    assert o1.log == o.log + [Emitted(Emission(FreelancerStarted, []))] && o1.process == env.process;
    RunningStep(o, env, ReadRunning(o, env));
    var o2 := WriteForeground(o1, ReadForeground(o1, env));
    ForegroundStep(o1, ReadForeground(o1, env));
    assert o2.log[..|o1.log|] == o1.log && o2.process == env.process && o2.running.last && ReadRunning(o2, env);
    RunningWritesKeepGood(o2, env);
    RunningWritesSettle(o2, env);
    RunningWritesKeepProcess(o2, env);
    var r := RefreshRunning(o2, env);
    assert r.log[..|o1.log|] == o1.log;
    assert r.log[|o.log|] == o1.log[|o.log|];
  }


  // Every refresh keeps the declarations, only appends to the log, and emits only what the signals accept

  predicate LogAccepted(log: seq<Effect>) {
    forall i :: 0 <= i < |log| && log[i].Emitted? ==> Accepted(log[i].emission)
  }

  /** The invariant every refresh preserves. */
  predicate Good(o: Obs) {
    AsDeclared(o) && LogAccepted(o.log)
  }

  /** `r` is a later state of `o`: same known names, and `o`'s log is a prefix of `r`'s. */
  predicate Extends(o: Obs, r: Obs) {
    r.systems == o.systems && r.bases == o.bases && |o.log| <= |r.log| && r.log[..|o.log|] == o.log
  }

  lemma ExtendsTransitive(a: Obs, b: Obs, c: Obs)
    requires Extends(a, b) && Extends(b, c)
    ensures Extends(a, c)
  {
    assert c.log[..|a.log|] == c.log[..|b.log|][..|a.log|];
  }

  lemma EmitStep(o: Obs, signal: SignalName, payload: Payload)
    requires Good(o) && Accepted(Emission(signal, payload))
    ensures Good(Emit(o, signal, payload)) && Extends(o, Emit(o, signal, payload))
  {
    var r := Emit(o, signal, payload);
    assert r.log[..|o.log|] == o.log;
  }

  lemma OneFieldEmitStep(o: Obs, signal: SignalName, f: Field, v: Value)
    requires Good(o) && SchemaOf(signal).Keys == {f}
    ensures Good(Emit(o, signal, [(f, v)])) && Extends(o, Emit(o, signal, [(f, v)]))
  {
    OneFieldKeys(f, v);
    EmitStep(o, signal, [(f, v)]);
  }

  lemma RunningStep(o: Obs, env: Env, v: bool)
    requires Good(o)
    ensures Good(WriteRunning(o, env, v)) && Extends(o, WriteRunning(o, env, v))
  {
    if v != o.running.last {
      if v {
        EmitStep(o.(process := env.process), FreelancerStarted, []);
      } else {
        var closed := if Closable(o.process) then o.(log := o.log + [Closed(o.process)]) else o;
        assert closed.log[..|o.log|] == o.log;
        EmitStep(closed, FreelancerStopped, []);
        ExtendsTransitive(o, closed, Emit(closed, FreelancerStopped, []));
      }
    }
  }

  lemma ForegroundStep(o: Obs, v: bool)
    requires Good(o)
    ensures Good(WriteForeground(o, v)) && Extends(o, WriteForeground(o, v))
  {
    if v != o.foreground.last {
      EmitStep(o, if v then SwitchedToForeground else SwitchedToBackground, []);
    }
  }

  lemma AccountStep(o: Obs, v: Option<string>)
    requires Good(o)
    ensures Good(WriteAccount(o, v)) && Extends(o, WriteAccount(o, v))
  {
    OneFieldEmitStep(o, AccountChanged, "account", OptStr(v));
  }

  lemma SystemStep(o: Obs, v: Option<string>)
    requires Good(o)
    ensures Good(WriteSystem(o, v)) && Extends(o, WriteSystem(o, v))
  {
    OneFieldEmitStep(o, SystemChanged, "system", OptStr(v));
  }

  lemma BaseStep(o: Obs, v: Option<string>)
    requires Good(o)
    ensures Good(WriteBase(o, v)) && Extends(o, WriteBase(o, v))
  {
  }

  lemma LoadedStep(o: Obs, env: Env, v: bool)
    requires Good(o)
    ensures Good(WriteCharacterLoaded(o, env, v)) && Extends(o, WriteCharacterLoaded(o, env, v))
  {
    AccountStep(o, ReadAccount(o, env));
    SystemStep(o, None);
    BaseStep(WriteSystem(o, None), None);
    ExtendsTransitive(o, WriteSystem(o, None), WriteBase(WriteSystem(o, None), None));
  }

  lemma NameStep(o: Obs, v: Option<string>)
    requires Good(o)
    ensures Good(WriteName(o, v)) && Extends(o, WriteName(o, v))
  {
    OneFieldEmitStep(o, CharacterChanged, "name", OptStr(v));
  }

  lemma CreditsStep(o: Obs, v: Option<Scalar>)
    requires Good(o)
    ensures Good(WriteCredits(o, v)) && Extends(o, WriteCredits(o, v))
  {
    OneFieldEmitStep(o, CreditsChanged, "balance", OptScalar(v));
  }

  lemma DockedStep(o: Obs, env: Env, v: Option<bool>)
    requires Good(o)
    ensures Good(WriteDocked(o, env, v)) && Extends(o, WriteDocked(o, env, v))
  {
    var based := WriteBase(o, Some(ReadMouseover(o, env)));
    BaseStep(o, Some(ReadMouseover(o, env)));
    OneFieldEmitStep(based, Docked, "base", OptStr(ReadBase(based, env)));
    ExtendsTransitive(o, based, Emit(based, Docked, [("base", OptStr(ReadBase(based, env)))]));
    EmitStep(o, Undocked, []);
  }

  lemma MouseoverStep(o: Obs, env: Env, v: string)
    requires Good(o)
    ensures Good(WriteMouseover(o, env, v)) && Extends(o, WriteMouseover(o, env, v))
  {
    SystemStep(o, Some(v));
  }

  lemma ChatBoxStep(o: Obs, v: bool)
    requires Good(o)
    ensures Good(WriteChatBox(o, v)) && Extends(o, WriteChatBox(o, v))
  {
  }

  lemma RunningWritesKeepGood(o: Obs, env: Env)
    requires Good(o)
    ensures Good(RefreshRunning(o, env)) && Extends(o, RefreshRunning(o, env))
  {
    var o3 := WriteCharacterLoaded(o, env, ReadCharacterLoaded(o, env));
    LoadedStep(o, env, ReadCharacterLoaded(o, env));
    var o4 := WriteName(o3, ReadName(o3, env));
    NameStep(o3, ReadName(o3, env));
    ExtendsTransitive(o, o3, o4);
    var o5 := WriteCredits(o4, ReadCredits(o4, env));
    CreditsStep(o4, ReadCredits(o4, env));
    ExtendsTransitive(o, o4, o5);
    var o6 := WriteDocked(o5, env, ReadDocked(o5, env));
    DockedStep(o5, env, ReadDocked(o5, env));
    ExtendsTransitive(o, o5, o6);
    var o7 := WriteMouseover(o6, env, ReadMouseover(o6, env));
    MouseoverStep(o6, env, ReadMouseover(o6, env));
    ExtendsTransitive(o, o6, o7);
    var r := WriteChatBox(o7, ReadChatBox(o7, env));
    ChatBoxStep(o7, ReadChatBox(o7, env));
    ExtendsTransitive(o, o7, r);
    assert r == RefreshRunning(o, env);
  }

  /**
   * A refresh keeps every declaration, keeps the known names, only appends to the log, and
   * emits only events whose fields are exactly those their signal declares.
   */
  lemma RefreshKeepsGood(o: Obs, env: Env)
    requires Good(o)
    ensures Good(Refreshed(o, env)) && Extends(o, Refreshed(o, env))
  {
    var o1 := WriteRunning(o, env, ReadRunning(o, env));
    RunningStep(o, env, ReadRunning(o, env));
    var o2 := WriteForeground(o1, ReadForeground(o1, env));
    ForegroundStep(o1, ReadForeground(o1, env));
    ExtendsTransitive(o, o1, o2);
    if ReadRunning(o2, env) {
      RunningWritesKeepGood(o2, env);
      ExtendsTransitive(o, o2, RefreshRunning(o2, env));
    }
  }

  // What changes the current system

  /** The writes other than `mouseover` and `character_loaded` never touch `system`, `mouseover` or `character_loaded`. */
  lemma OtherWritesKeepSystem(o: Obs, env: Env, b: bool, os: Option<string>, oi: Option<Scalar>, ob: Option<bool>)
    ensures var r := WriteRunning(o, env, b); r.system == o.system && r.mouseover == o.mouseover && r.characterLoaded == o.characterLoaded
    ensures var r := WriteForeground(o, b); r.system == o.system && r.mouseover == o.mouseover && r.characterLoaded == o.characterLoaded
    ensures var r := WriteName(o, os); r.system == o.system && r.mouseover == o.mouseover
    ensures var r := WriteCredits(o, oi); r.system == o.system && r.mouseover == o.mouseover
    ensures var r := WriteDocked(o, env, ob); r.system == o.system && r.mouseover == o.mouseover
    ensures WriteChatBox(o, b).system == o.system
  {
  }

  /** `e` was appended to the log somewhere between `o` and `r`. */
  predicate EmittedBetween(o: Obs, r: Obs, e: Emission) {
    exists i :: |o.log| <= i < |r.log| && r.log[i] == Emitted(e)
  }

  lemma EmittedBetweenWidens(a: Obs, b: Obs, c: Obs, d: Obs, e: Emission)
    requires Extends(a, b) && Extends(b, c) && Extends(c, d) && EmittedBetween(b, c, e)
    ensures EmittedBetween(a, d, e)
  {
    var i :| |b.log| <= i < |c.log| && c.log[i] == Emitted(e);
    assert d.log[..|c.log|] == c.log;
    assert d.log[i] == d.log[..|c.log|][i];
  }

  lemma SystemWriteEmits(o: Obs, v: Option<string>)
    requires v != o.system.last
    ensures EmittedBetween(o, WriteSystem(o, v), Emission(SystemChanged, [("system", OptStr(v))]))
  {
    assert WriteSystem(o, v).log[|o.log|] == Emitted(Emission(SystemChanged, [("system", OptStr(v))]));
  }

  /** Writing `character_loaded` changes the system only by clearing it when the character is unloaded. */
  lemma LoadedSystemEffect(o: Obs, env: Env, v: bool)
    requires Good(o)
    ensures var r := WriteCharacterLoaded(o, env, v);
      r.mouseover == o.mouseover &&
      (r.system == o.system ||
       (!v && o.characterLoaded.last && r.system.last == None &&
        EmittedBetween(o, r, Emission(SystemChanged, [("system", OptStr(None))]))))
  {
    var r := WriteCharacterLoaded(o, env, v);
    if r.system != o.system {
      var cleared := WriteSystem(o, None);
      SystemWriteEmits(o, None);
      SystemStep(o, None);
      LoadedStep(o, env, v);
      assert r.log == cleared.log;
    }
  }

  /** Writing `mouseover` changes the system only to a newly hovered known system's name. */
  lemma MouseoverSystemEffect(o: Obs, env: Env, v: string)
    requires Good(o)
    ensures var r := WriteMouseover(o, env, v);
      r.characterLoaded == o.characterLoaded &&
      (r.system == o.system ||
       (v in o.systems && v != o.mouseover.last && r.system.last == Some(v) &&
        EmittedBetween(o, r, Emission(SystemChanged, [("system", OptStr(Some(v)))]))))
  {
    var r := WriteMouseover(o, env, v);
    if r.system != o.system {
      SystemWriteEmits(o, Some(v));
      assert r.log == WriteSystem(o, Some(v)).log;
    }
  }

  lemma RunningWritesSystemCause(o: Obs, env: Env)
    requires Good(o) && env.present
    ensures var r := RefreshRunning(o, env);
      r.system.last != o.system.last ==>
        ((r.system.last == Some(env.mouseover) && env.mouseover in o.systems && env.mouseover != o.mouseover.last) ||
         (r.system.last == None && o.characterLoaded.last && !env.characterLoaded)) &&
        EmittedBetween(o, r, Emission(SystemChanged, [("system", OptStr(r.system.last))]))
  {
    var r := RefreshRunning(o, env);
    var o3 := WriteCharacterLoaded(o, env, ReadCharacterLoaded(o, env));
    LoadedStep(o, env, ReadCharacterLoaded(o, env));
    LoadedSystemEffect(o, env, ReadCharacterLoaded(o, env));
    var o4 := WriteName(o3, ReadName(o3, env));
    NameStep(o3, ReadName(o3, env));
    OtherWritesKeepSystem(o3, env, false, ReadName(o3, env), None, None);
    var o5 := WriteCredits(o4, ReadCredits(o4, env));
    CreditsStep(o4, ReadCredits(o4, env));
    OtherWritesKeepSystem(o4, env, false, None, ReadCredits(o4, env), None);
    var o6 := WriteDocked(o5, env, ReadDocked(o5, env));
    DockedStep(o5, env, ReadDocked(o5, env));
    OtherWritesKeepSystem(o5, env, false, None, None, ReadDocked(o5, env));
    var o7 := WriteMouseover(o6, env, ReadMouseover(o6, env));
    MouseoverStep(o6, env, ReadMouseover(o6, env));
    MouseoverSystemEffect(o6, env, ReadMouseover(o6, env));
    ChatBoxStep(o7, ReadChatBox(o7, env));
    OtherWritesKeepSystem(o7, env, ReadChatBox(o7, env), None, None, None);
    assert r == WriteChatBox(o7, ReadChatBox(o7, env));
    ExtendsTransitive(o3, o4, o5);
    ExtendsTransitive(o3, o5, o6);
    if r.system.last != o.system.last {
      if o7.system != o6.system {
        ExtendsTransitive(o, o3, o6);
        EmittedBetweenWidens(o, o6, o7, r, Emission(SystemChanged, [("system", OptStr(r.system.last))]));
      } else {
        ExtendsTransitive(o3, o6, o7);
        EmittedBetweenWidens(o, o, o3, r, Emission(SystemChanged, [("system", OptStr(r.system.last))]));
      }
    }
  }

  /**
   * The system changes in a refresh for one of two reasons only: the mouse moved onto a
   * known system's name, or the character was unloaded (which clears it); either way
   * `system_changed` is emitted with the new value.
   */
  lemma SystemChangeCause(o: Obs, env: Env)
    requires Good(o)
    ensures var r := Refreshed(o, env);
      r.system.last != o.system.last ==>
        env.present &&
        ((r.system.last == Some(env.mouseover) && env.mouseover in o.systems && env.mouseover != o.mouseover.last) ||
         (r.system.last == None && o.characterLoaded.last && !env.characterLoaded)) &&
        EmittedBetween(o, r, Emission(SystemChanged, [("system", OptStr(r.system.last))]))
  {
    var o1 := WriteRunning(o, env, ReadRunning(o, env));
    RunningStep(o, env, ReadRunning(o, env));
    OtherWritesKeepSystem(o, env, ReadRunning(o, env), None, None, None);
    var o2 := WriteForeground(o1, ReadForeground(o1, env));
    ForegroundStep(o1, ReadForeground(o1, env));
    OtherWritesKeepSystem(o1, env, ReadForeground(o1, env), None, None, None);
    if ReadRunning(o2, env) {
      RunningWritesSystemCause(o2, env);
      var r := RefreshRunning(o2, env);
      RunningWritesKeepGood(o2, env);
      ExtendsTransitive(o, o1, o2);
      if r.system.last != o.system.last {
        EmittedBetweenWidens(o, o2, r, r, Emission(SystemChanged, [("system", OptStr(r.system.last))]));
      }
    }
  }

  // ---------------------------------------------------------------------------
  // The observer object

  class FreelancerState {
    const systems: set<string>
    const bases: set<string>
    var process: Handle
    var log: seq<Effect>
    var running: Var<bool>
    var foreground: Var<bool>
    var chatBox: Var<bool>
    var account: Var<Option<string>>
    var mouseover: Var<string>
    var characterLoaded: Var<bool>
    var name: Var<Option<string>>
    var credits: Var<Option<Scalar>>
    var system: Var<Option<string>>
    var base: Var<Option<string>>
    var docked: Var<Option<bool>>

    function Snapshot(): Obs
      reads this
    {
      Obs(systems, bases, process, log, running, foreground, chatBox, account, mouseover,
        characterLoaded, name, credits, system, base, docked)
    }

    /**
     * The known system and base names come from the game's data files, which are outside the model.
     * `__init__` ends with `begin_polling`, whose first `poll` refreshes before the constructor returns.
     */
    constructor (systems: set<string>, bases: set<string>, env: Env)
      ensures Snapshot() == Refreshed(Initial(systems, bases), env)
    {
      this.systems := systems;
      this.bases := bases;
      process := IntHandle(0);
      log := [];
      running := Declared(false, false);
      foreground := Declared(false, false);
      chatBox := Declared(false, false);
      account := Declared(Some(""), false);
      mouseover := Declared("", false);
      characterLoaded := Declared(false, false);
      name := Declared(None, false);
      credits := Declared(None, false);
      system := Declared(None, true);
      base := Declared(None, true);
      docked := Declared(None, false);
      new;
      Refresh(env);
    }

    method Publish(signal: SignalName, payload: Payload)
      modifies this
      ensures Snapshot() == Emit(old(Snapshot()), signal, payload)
    {
      log := log + [Emitted(Emission(signal, payload))];
    }

    method SetRunning(env: Env, value: bool)
      modifies this
      ensures Snapshot() == WriteRunning(old(Snapshot()), env, value)
    {
      if value != running.last {
        if value {
          process := env.process;
          Publish(FreelancerStarted, []);
        } else {
          if process.OsHandle? && process.h != 0 {
            log := log + [Closed(process)];
          }
          Publish(FreelancerStopped, []);
        }
        running := running.(last := value);
      }
    }

    method SetForeground(value: bool)
      modifies this
      ensures Snapshot() == WriteForeground(old(Snapshot()), value)
    {
      if value != foreground.last {
        if value {
          Publish(SwitchedToForeground, []);
        } else {
          Publish(SwitchedToBackground, []);
        }
        foreground := foreground.(last := value);
      }
    }

    method SetChatBox(value: bool)
      modifies this
      ensures Snapshot() == WriteChatBox(old(Snapshot()), value)
    {
      if value != chatBox.last {
        chatBox := chatBox.(last := value);
      }
    }

    method SetAccount(value: Option<string>)
      modifies this
      ensures Snapshot() == WriteAccount(old(Snapshot()), value)
    {
      if value != account.last {
        Publish(AccountChanged, [("account", OptStr(value))]);
        account := account.(last := value);
      }
    }

    method SetSystem(value: Option<string>)
      modifies this
      ensures Snapshot() == WriteSystem(old(Snapshot()), value)
    {
      if value != system.last {
        Publish(SystemChanged, [("system", OptStr(value))]);
        system := system.(last := value);
      }
    }

    method SetBase(value: Option<string>)
      modifies this
      ensures Snapshot() == WriteBase(old(Snapshot()), value)
    {
      if value != base.last {
        base := base.(last := value);
      }
    }

    method SetMouseover(env: Env, value: string)
      modifies this
      ensures Snapshot() == WriteMouseover(old(Snapshot()), env, value)
    {
      if value != mouseover.last {
        if value in systems {
          SetSystem(Some(value));
        }
        mouseover := mouseover.(last := value);
      }
    }

    method SetCharacterLoaded(env: Env, value: bool)
      modifies this
      ensures Snapshot() == WriteCharacterLoaded(old(Snapshot()), env, value)
    {
      if value != characterLoaded.last {
        if value {
          SetAccount(account.Get(env.present, env.account));
        } else {
          SetSystem(None);
          SetBase(None);
        }
        characterLoaded := characterLoaded.(last := value);
      }
    }

    method SetName(value: Option<string>)
      modifies this
      ensures Snapshot() == WriteName(old(Snapshot()), value)
    {
      if value != name.last {
        Publish(CharacterChanged, [("name", OptStr(value))]);
        name := name.(last := value);
      }
    }

    method SetCredits(value: Option<Scalar>)
      modifies this
      ensures Snapshot() == WriteCredits(old(Snapshot()), value)
    {
      if CreditsDiffer(value, credits.last) {
        Publish(CreditsChanged, [("balance", OptScalar(value))]);
        credits := credits.(last := value);
      }
    }

    method SetDocked(env: Env, value: Option<bool>)
      modifies this
      ensures Snapshot() == WriteDocked(old(Snapshot()), env, value)
    {
      if value != docked.last {
        if value == Some(true) && mouseover.Get(env.present, env.mouseover) in bases {
          SetBase(Some(mouseover.Get(env.present, env.mouseover)));
          Publish(Docked, [("base", OptStr(base.Get(env.present, None)))]);
        } else if value != Some(true) {
          Publish(Undocked, []);
        }
        docked := docked.(last := value);
      }
    }

    /** The first half of the writes made while the game runs: the character and its name and credits. */
    method RefreshCharacter(env: Env)
      modifies this
      ensures var o3 := WriteCharacterLoaded(old(Snapshot()), env, ReadCharacterLoaded(old(Snapshot()), env));
        var o4 := WriteName(o3, ReadName(o3, env));
        Snapshot() == WriteCredits(o4, ReadCredits(o4, env))
    {
      ghost var o := Snapshot();
      SetCharacterLoaded(env, characterLoaded.Get(env.present, env.characterLoaded));
      ghost var o3 := Snapshot();
      assert o3 == WriteCharacterLoaded(o, env, ReadCharacterLoaded(o, env));
      var loaded := characterLoaded.Get(env.present, env.characterLoaded);
      SetName(name.Get(env.present, if loaded then Some(env.name) else None));
      assert Snapshot() == WriteName(o3, ReadName(o3, env));
      loaded := characterLoaded.Get(env.present, env.characterLoaded);
      SetCredits(credits.Get(env.present, if loaded then Some(env.credits) else None));
    }

    /** The second half: docked, mouseover and the chat box. */
    method RefreshSurroundings(env: Env)
      modifies this
      ensures var o6 := WriteDocked(old(Snapshot()), env, ReadDocked(old(Snapshot()), env));
        var o7 := WriteMouseover(o6, env, ReadMouseover(o6, env));
        Snapshot() == WriteChatBox(o7, ReadChatBox(o7, env))
    {
      ghost var o5 := Snapshot();
      var loaded := characterLoaded.Get(env.present, env.characterLoaded);
      SetDocked(env, docked.Get(env.present, if loaded then Some(env.docked) else None));
      ghost var o6 := Snapshot();
      assert o6 == WriteDocked(o5, env, ReadDocked(o5, env));
      SetMouseover(env, mouseover.Get(env.present, env.mouseover));
      assert Snapshot() == WriteMouseover(o6, env, ReadMouseover(o6, env));
      SetChatBox(chatBox.Get(env.present, env.chatBox));
    }

    /** The writes made only while the game runs, in `refresh`'s order. */
    method RefreshWhileRunning(env: Env)
      modifies this
      ensures Snapshot() == RefreshRunning(old(Snapshot()), env)
    {
      RefreshCharacter(env);
      RefreshSurroundings(env);
    }

    /** `refresh`: each variable is written with what reading it gives, in the source's order. */
    method Refresh(env: Env)
      modifies this
      ensures Snapshot() == Refreshed(old(Snapshot()), env)
    {
      ghost var o := Snapshot();
      SetRunning(env, running.Get(env.present, env.present));
      ghost var o1 := Snapshot();
      assert o1 == WriteRunning(o, env, ReadRunning(o, env));
      SetForeground(foreground.Get(env.present, if running.Get(env.present, env.present) then env.foreground else false));
      assert Snapshot() == WriteForeground(o1, ReadForeground(o1, env));
      if running.Get(env.present, env.present) {
        RefreshWhileRunning(env);
      }
    }
  }
}
