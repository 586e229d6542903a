/**
 * The in-game command line of flair/augment/cli.py: a sent chat message of the form
 * `..command args` runs one of the `Command` subclasses, whose replies are queued as
 * display text. The commands' own side effects that reach outside flair (the clock for
 * `date`, the game data files for `sector`, Python's `eval`, key injection for `quit`)
 * are not modelled: the parse reports which command runs with which arguments instead.
 */
module Cli {
  import opened Wrappers
  import opened Text
  import opened Events

  const Invocation := ".."

  /** `flair.__version__` (the float 0.1, formatted by an f-string). */
  const Version := "0.1"

  /** The subclasses of `CLI.Command`. */
  datatype Command = Date | Sector | Eval | Quit | Help

  /** `Command.__subclasses__()`: in the order the classes are defined. */
  const Commands := [Date, Sector, Eval, Quit, Help]

  function ClassName(c: Command): string {
    match c
    case Date => "Date"
    case Sector => "Sector"
    case Eval => "Eval"
    case Quit => "Quit"
    case Help => "Help"
  }

  function Doc(c: Command): string {
    match c
    case Date => "Print the local date and time"
    case Sector => "Print the current sector and system"
    case Eval => "Evaluate the given expression with Python"
    case Quit => "Quit the game"
    case Help => "Show this help message"
  }

  /** What a message leads to: texts queued for display, or a command whose effect lies outside the model. */
  datatype Reply = Texts(texts: seq<string>) | External(command: Command, args: seq<string>)

  /** The `commands` dict: the command whose lowercased class name is `name`, if any. */
  function Lookup(name: string, candidates: seq<Command>): (r: Option<Command>)
    ensures r.Some? ==> r.value in candidates && name == Lower(ClassName(r.value))
    ensures r.None? ==> forall c :: c in candidates ==> name != Lower(ClassName(c))
  {
    if candidates == [] then None
    else if Lower(ClassName(candidates[0])) == name then Some(candidates[0])
    else Lookup(name, candidates[1..])
  }

  /** The text `Help` queues for one command: `..name: doc`, all lowercased. */
  function HelpLine(c: Command): string {
    Lower(Invocation + ClassName(c) + ": " + Doc(c))
  }

  /** What `Help` queues: the version line, then one line per command. */
  function HelpLines(): (r: seq<string>)
    ensures |r| == 1 + |Commands|
    ensures r[0] == "flair version " + Version
    ensures forall i :: 0 <= i < |Commands| ==> r[i + 1] == HelpLine(Commands[i])
  {
    ["flair version " + Version] + seq(|Commands|, i requires 0 <= i < |Commands| => HelpLine(Commands[i]))
  }

  /**
   * Calling a command with the message's remaining tokens. Only `Eval` takes arguments
   * (`*expression`); the others raise TypeError when given any.
   */
  function Run(c: Command, args: seq<string>, system: Option<string>): (r: Result<Reply>)
    ensures c != Eval && args != [] ==> r == Err(TypeError)
    ensures r.Err? ==> c != Eval && args != []
    ensures c == Help && args == [] ==> r == Ok(Texts(HelpLines()))
  {
    if c != Eval && args != [] then Err(TypeError)
    else
      match c
      case Date => Ok(External(Date, []))
      case Sector =>
        if system == None || system == Some("") then Ok(Texts(["Err: unknown location"]))
        else Ok(External(Sector, []))
      case Eval => if args == [] then Ok(Texts([])) else Ok(External(Eval, args))
      case Quit => Ok(External(Quit, []))
      case Help => Ok(Texts(HelpLines()))
  }

  /**
   * `parse_message`: a message is a command only when, stripped, it begins with `..`;
   * the first word after that names the command, the rest are its arguments. `..` with
   * no word after it makes the unpacking raise ValueError.
   */
  function ParseMessage(message: string, system: Option<string>): (r: Result<Reply>)
    ensures !StartsWith(Strip(message), Invocation) ==> r == Ok(Texts([]))
    ensures r.Err? ==> r.error in {ValueError, TypeError}
  {
    var (preamble, invocation, command) := Partition(Strip(message), Invocation);
    if invocation != [] && preamble == [] then
      var tokens := Words(command);
      if tokens == [] then Err(ValueError)
      else
        match Lookup(tokens[0], Commands)
        case None => Ok(Texts(["Err: command not found"]))
        case Some(c) => Run(c, tokens[1..], system)
    else Ok(Texts([]))
  }

  // ---------------------------------------------------------------------------
  // Properties

  /** A message is taken as a command exactly when its stripped text starts with `..`; any other message queues nothing. */
  lemma CommandsStartWithInvocation(message: string, system: Option<string>)
    ensures !StartsWith(Strip(message), Invocation) ==> ParseMessage(message, system) == Ok(Texts([]))
    ensures StartsWith(Strip(message), Invocation) ==>
      var tokens := Words(Strip(message)[|Invocation|..]);
      ParseMessage(message, system) == if tokens == [] then Err(ValueError) else
        match Lookup(tokens[0], Commands)
        case None => Ok(Texts(["Err: command not found"]))
        case Some(c) => Run(c, tokens[1..], system)
  {
    var s := Strip(message);
    var p := Partition(s, Invocation);
    if StartsWith(s, Invocation) {
      assert OccursAt(s, Invocation, 0);
      assert Find(s, Invocation) == Some(0);
    }
  }

  /** Lookup is exact against the lowercased class names. */
  lemma LookupIsExact(name: string)
    ensures Lookup(name, Commands).Some? <==> name in {"date", "sector", "eval", "quit", "help"}
  {
    LowerClassNames();
  }

  lemma LowerClassNames()
    ensures Lower(ClassName(Date)) == "date" && Lower(ClassName(Sector)) == "sector"
    ensures Lower(ClassName(Eval)) == "eval" && Lower(ClassName(Quit)) == "quit"
    ensures Lower(ClassName(Help)) == "help"
  {
    assert Lower("Date") == "date" by {
      var r := Lower("Date");
      assert r[0] == 'd' && r[1] == 'a' && r[2] == 't' && r[3] == 'e';
    }
    assert Lower("Sector") == "sector" by {
      var r := Lower("Sector");
      assert r[0] == 's' && r[1] == 'e' && r[2] == 'c' && r[3] == 't' && r[4] == 'o' && r[5] == 'r';
    }
    assert Lower("Eval") == "eval" by {
      var r := Lower("Eval");
      assert r[0] == 'e' && r[1] == 'v' && r[2] == 'a' && r[3] == 'l';
    }
    assert Lower("Quit") == "quit" by {
      var r := Lower("Quit");
      assert r[0] == 'q' && r[1] == 'u' && r[2] == 'i' && r[3] == 't';
    }
    assert Lower("Help") == "help" by {
      var r := Lower("Help");
      assert r[0] == 'h' && r[1] == 'e' && r[2] == 'l' && r[3] == 'p';
    }
  }

  /** A name typed with capitals is not found: `..Help` queues the not-found error. */
  lemma CapitalisedNameNotFound()
    ensures Lookup("Help", Commands).None?
  {
    LookupIsExact("Help");
  }

  /** Every help line is lowercase and starts with the invocation and the command's lowercased name. */
  lemma HelpLinesAreLowercase(i: nat)
    requires i < |Commands|
    ensures var line := HelpLines()[i + 1];
      (forall k :: 0 <= k < |line| ==> !('A' <= line[k] <= 'Z')) &&
      line[..|Invocation + ClassName(Commands[i])|] == Invocation + Lower(ClassName(Commands[i]))
  {
    var c := Commands[i];
    var raw := Invocation + ClassName(c) + ": " + Doc(c);
    var line := Lower(raw);
    assert line == HelpLines()[i + 1];
    var n := |Invocation + ClassName(c)|;
    assert line[..n] == Invocation + Lower(ClassName(c)) by {
      forall k | 0 <= k < n
        ensures line[..n][k] == (Invocation + Lower(ClassName(c)))[k]
      {
        assert raw[k] == (Invocation + ClassName(c))[k];
        if k < 2 {
          assert raw[k] == '.';
        }
      }
    }
  }

  /** `..sector` with no known system queues the error text. */
  lemma SectorUnknownLocation(args: seq<string>, system: Option<string>)
    requires system == None || system == Some("")
    ensures Run(Sector, [], system) == Ok(Texts(["Err: unknown location"]))
    ensures args != [] ==> Run(Sector, args, system) == Err(TypeError)
  {
  }

  /** `..eval` alone queues nothing; with words after it they are its arguments. */
  lemma EvalArguments(args: seq<string>, system: Option<string>)
    ensures args == [] ==> Run(Eval, args, system) == Ok(Texts([]))
    ensures args != [] ==> Run(Eval, args, system) == Ok(External(Eval, args))
  {
  }

  // ---------------------------------------------------------------------------
  // Loading and unloading the augmentation

  /** The bound methods the CLI connects. */
  const ShowWelcomeMessage := Callback("CLI.show_welcome_message")
  const ParseMessageCallback := Callback("CLI.parse_message")

  /** `show_welcome_message`: the greeting queued when a character is loaded. */
  function WelcomeText(): string {
    "Welcome to Sirius, pilot. You're using flair " + Version + ". Type ..help to list a few commands."
  }

  /** `load`: greet on `character_changed`, parse on `message_sent`. */
  method Load(characterChanged: Signal, messageSent: Signal)
    requires characterChanged != messageSent
    modifies characterChanged, messageSent
    ensures characterChanged.subscribers == old(characterChanged.subscribers) + {ShowWelcomeMessage}
    ensures messageSent.subscribers == old(messageSent.subscribers) + {ParseMessageCallback}
  {
    characterChanged.Connect(ShowWelcomeMessage);
    messageSent.Connect(ParseMessageCallback);
  }

  /** `unload`: disconnects exactly the two callbacks `load` connected. */
  method Unload(characterChanged: Signal, messageSent: Signal)
    requires characterChanged != messageSent
    modifies characterChanged, messageSent
    ensures characterChanged.subscribers == old(characterChanged.subscribers) - {ShowWelcomeMessage}
    ensures messageSent.subscribers == old(messageSent.subscribers) - {ParseMessageCallback}
  {
    characterChanged.Disconnect(ShowWelcomeMessage);
    messageSent.Disconnect(ParseMessageCallback);
  }
}
