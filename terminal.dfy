/** The developer terminal: a table of commands with optional subcommands,
    the interpreter that runs one input line against it (log output and at
    most one game action), tab-completion suggestions, and the history
    cursor moved by the arrow keys. */
module Terminal {
  import opened Wrappers
  import opened GameReducer
  import opened JsStrings
  import GameStore

  /** The `run` functions of the table, one tag each. */
  datatype Handler =
    | AddCoinsRun
    | RemoveCoinsRun
    | ResetCoinsRun
    | ResetGameRun
    | ClearRun
    | HelpRun

  datatype SubCommand = SubCommand(name: string, description: string, run: Handler)

  datatype Command = Command(
    name: string,
    description: string,
    subcommands: Option<seq<SubCommand>>,
    run: Option<Handler>)

  const CoinsSubcommands: seq<SubCommand> := [
    SubCommand("add", "Add coins. Example: coins add 1000", AddCoinsRun),
    SubCommand("remove", "Remove coins", RemoveCoinsRun),
    SubCommand("reset", "Reset coins. Example: coins reset", ResetCoinsRun)
  ]

  const Commands: seq<Command> := [
    Command("coins", "Manage coins", Some(CoinsSubcommands), None),
    Command("reset", "Reset the game", None, Some(ResetGameRun)),
    Command("clear", "Clear the terminal", None, Some(ClearRun)),
    Command("help", "Show all available commands", None, Some(HelpRun))
  ]

  /** `find` by name: the first command with that name, if any (that it is
      the first is FindCommandFirst). */
  function FindCommand(cs: seq<Command>, name: string): (r: Option<Command>)
    ensures r.Some? ==> r.value in cs && r.value.name == name
    ensures r.None? <==> forall i :: 0 <= i < |cs| ==> cs[i].name != name
  {
    if |cs| == 0 then None
    else if cs[0].name == name then Some(cs[0])
    else FindCommand(cs[1..], name)
  }

  /** The command `find` returns is the first one of the table with that
      name. */
  lemma {:induction false} FindCommandFirst(cs: seq<Command>, name: string)
    ensures FindCommand(cs, name).Some? ==>
      exists i :: 0 <= i < |cs| && cs[i] == FindCommand(cs, name).value &&
        forall j :: 0 <= j < i ==> cs[j].name != name
  {
    if |cs| > 0 && cs[0].name != name && FindCommand(cs, name).Some? {
      FindCommandFirst(cs[1..], name);
      var i :| 0 <= i < |cs| - 1 && cs[1..][i] == FindCommand(cs, name).value &&
        forall j :: 0 <= j < i ==> cs[1..][j].name != name;
      assert cs[i + 1] == cs[1..][i];
      assert forall j :: 1 <= j < i + 1 ==> cs[j] == cs[1..][j - 1];
    }
  }

  /** `find` by name among subcommands: the same search as FindCommand, over
      the table's second record type (a subcommand has no subcommands of its
      own, so the two records are kept apart as in the source's two types). */
  function FindSub(subs: seq<SubCommand>, name: string): (r: Option<SubCommand>)
    ensures r.Some? ==> r.value in subs && r.value.name == name
    ensures r.None? <==> forall i :: 0 <= i < |subs| ==> subs[i].name != name
  {
    if |subs| == 0 then None
    else if subs[0].name == name then Some(subs[0])
    else FindSub(subs[1..], name)
  }

  /** The subcommand `find` returns is the first one with that name. */
  lemma {:induction false} FindSubFirst(subs: seq<SubCommand>, name: string)
    ensures FindSub(subs, name).Some? ==>
      exists i :: 0 <= i < |subs| && subs[i] == FindSub(subs, name).value &&
        forall j :: 0 <= j < i ==> subs[j].name != name
  {
    if |subs| > 0 && subs[0].name != name && FindSub(subs, name).Some? {
      FindSubFirst(subs[1..], name);
      var i :| 0 <= i < |subs| - 1 && subs[1..][i] == FindSub(subs, name).value &&
        forall j :: 0 <= j < i ==> subs[1..][j].name != name;
      assert subs[i + 1] == subs[1..][i];
      assert forall j :: 1 <= j < i + 1 ==> subs[j] == subs[1..][j - 1];
    }
  }

  /** The message the log callback reads as "empty the log". */
  const ClearMarker: string := "__CLEAR__"

  /** One change to the log: append a line, or empty it. */
  datatype LogOp = Print(line: string) | ClearAll

  /** What the `log` callback handed to a `run` does with a message. */
  function Logged(msg: string): LogOp
  {
    if msg == ClearMarker then ClearAll else Print(msg)
  }

  function LoggedAll(msgs: seq<string>): (r: seq<LogOp>)
    ensures |r| == |msgs|
  {
    if msgs == [] then [] else LoggedAll(msgs[..|msgs| - 1]) + [Logged(msgs[|msgs| - 1])]
  }

  function ApplyLog(logs: seq<string>, op: LogOp): seq<string>
  {
    match op
    case Print(line) => logs + [line]
    case ClearAll => []
  }

  /** The log after the changes, in order. */
  function ApplyLogs(logs: seq<string>, ops: seq<LogOp>): seq<string>
  {
    if ops == [] then logs else ApplyLog(ApplyLogs(logs, ops[..|ops| - 1]), ops[|ops| - 1])
  }

  lemma ApplyLogsAppend(logs: seq<string>, ops: seq<LogOp>, op: LogOp)
    ensures ApplyLogs(logs, ops + [op]) == ApplyLog(ApplyLogs(logs, ops), op)
  {
    assert (ops + [op])[..|ops|] == ops;
  }

  /** Messages that are not the marker are appended in order. */
  lemma {:induction false} LoggedAllAppends(logs: seq<string>, msgs: seq<string>)
    requires forall i :: 0 <= i < |msgs| ==> msgs[i] != ClearMarker
    ensures ApplyLogs(logs, LoggedAll(msgs)) == logs + msgs
  {
    if msgs != [] {
      var init := msgs[..|msgs| - 1];
      LoggedAllAppends(logs, init);
      ApplyLogsAppend(logs, LoggedAll(init), Logged(msgs[|msgs| - 1]));
      assert msgs == init + [msgs[|msgs| - 1]];
    }
  }

  /** The lines `help` logs for one command: its own, then one indented line
      per subcommand. */
  function CommandLines(c: Command): seq<string>
  {
    [c.name + " - " + c.description] +
    (if c.subcommands.Some? then SubLines(c.subcommands.value) else [])
  }

  function SubLines(subs: seq<SubCommand>): (r: seq<string>)
    ensures |r| == |subs|
    ensures forall j :: 0 <= j < |subs| ==> r[j] == "  " + subs[j].name + " - " + subs[j].description
    ensures forall j :: 0 <= j < |r| ==> r[j] != ClearMarker
  {
    var r := seq(|subs|, j requires 0 <= j < |subs| => "  " + subs[j].name + " - " + subs[j].description);
    assert forall j :: 0 <= j < |r| ==> r[j][0] == ' ' != ClearMarker[0];
    r
  }

  /** Everything `help` logs, command by command in table order. */
  function HelpLines(cs: seq<Command>): seq<string>
  {
    if cs == [] then [] else HelpLines(cs[..|cs| - 1]) + CommandLines(cs[|cs| - 1])
  }

  /** No help line is the marker: a command line starts with the command's
      name and a subcommand line with a space. */
  lemma {:induction false} HelpLinesArePrinted(cs: seq<Command>)
    requires forall i :: 0 <= i < |cs| ==> |cs[i].name| > 0 && cs[i].name[0] != '_'
    ensures forall k :: 0 <= k < |HelpLines(cs)| ==> HelpLines(cs)[k] != ClearMarker
  {
    if cs != [] {
      var init, c := cs[..|cs| - 1], cs[|cs| - 1];
      HelpLinesArePrinted(init);
      var lines := CommandLines(c);
      assert (c.name + " - " + c.description)[0] == c.name[0];
      forall k | 0 <= k < |lines|
        ensures lines[k] != ClearMarker
      {
        if k > 0 {
          assert lines[k][0] == ' ';
        }
      }
    }
  }

  lemma CommandNamesPlain()
    ensures forall i :: 0 <= i < |Commands| ==> |Commands[i].name| > 0 && Commands[i].name[0] != '_'
  {
  }

  /** What running one line produces: the log changes and the game action
      dispatched, if any. */
  datatype Outcome = Outcome(output: seq<LogOp>, action: Option<Action>)

  /** `args[0]` as `parseInt` reads it: an absent argument reads as the text
      "undefined". */
  function Argument(args: seq<string>): string
  {
    if |args| > 0 then args[0] else "undefined"
  }

  /** The confirmation of `coins add` ("Added") or `coins remove` ("Removed"). */
  function Confirmation(past: string, n: int): string
  {
    "\U{2714} " + past + " " + IntToString(n) + " coins"
  }

  /** The usage line of `coins add` or `coins remove`. */
  function Usage(verb: string): string
  {
    "\U{2716} Invalid amount. Usage: coins " + verb + " <amount>"
  }

  /** Neither message is the clear marker, so both are printed. */
  lemma MessagesPrinted(past: string, n: int, verb: string)
    ensures Logged(Confirmation(past, n)) == Print(Confirmation(past, n))
    ensures Logged(Usage(verb)) == Print(Usage(verb))
  {
    assert Confirmation(past, n)[0] != ClearMarker[0];
    assert Usage(verb)[0] != ClearMarker[0];
  }

  /** The `run` functions of the table. */
  function RunHandler(h: Handler, args: seq<string>): Outcome
  {
    match h
    case AddCoinsRun =>
      (match ParseInt(Argument(args))
       case Some(n) => Outcome([Logged(Confirmation("Added", n))], Some(AddCoins(n as real)))
       case None => Outcome([Logged(Usage("add"))], None))
    case RemoveCoinsRun =>
      (match ParseInt(Argument(args))
       case Some(n) => Outcome([Logged(Confirmation("Removed", n))], Some(RemoveCoins(n as real)))
       case None => Outcome([Logged(Usage("remove"))], None))
    case ResetCoinsRun => Outcome([], Some(ResetProgress))
    case ResetGameRun => Outcome([], Some(ResetGame))
    case ClearRun => Outcome([Logged(ClearMarker)], None)
    case HelpRun => Outcome(LoggedAll(HelpLines(Commands)), None)
  }

  /** The words of a line: trimmed, then split at every single space. */
  function Tokens(line: string): (parts: seq<string>)
    ensures |parts| >= 1
  {
    Split(Trim(line), ' ')
  }

  /** A subcommand name is used only when it is present and not empty. */
  predicate HasSubName(parts: seq<string>)
  {
    |parts| > 1 && parts[1] != ""
  }

  function Arguments(parts: seq<string>): seq<string>
    requires |parts| >= 1
  {
    parts[if HasSubName(parts) then 2 else 1..]
  }

  /** The interpreter: look the first word up, then the second among the
      command's subcommands when it has some and the word is there, else run
      the command itself, else report the missing subcommand. */
  function Interpret(line: string): Outcome
  {
    Execute(Tokens(line))
  }

  /** The interpreter on the words of the line. */
  function Execute(parts: seq<string>): Outcome
    requires |parts| >= 1
  {
    var cmdName := parts[0];
    var args := Arguments(parts);
    match FindCommand(Commands, cmdName)
    case None => Outcome([Print(cmdName + ": command not found")], None)
    case Some(cmd) =>
      if cmd.subcommands.Some? && HasSubName(parts) then
        match FindSub(cmd.subcommands.value, parts[1])
        case Some(sub) => RunHandler(sub.run, args)
        case None => Outcome([Print(parts[1] + ": subcommand not found")], None)
      else if cmd.run.Some? then RunHandler(cmd.run.value, args)
      else Outcome([Print(cmdName + ": missing subcommand")], None)
  }

  /** The table's lookups: four command names, three subcommands of "coins". */
  lemma CommandLookup(name: string)
    ensures FindCommand(Commands, name) ==
      if name == "coins" then Some(Commands[0])
      else if name == "reset" then Some(Commands[1])
      else if name == "clear" then Some(Commands[2])
      else if name == "help" then Some(Commands[3])
      else None
  {
    assert Commands[0].name == "coins" && Commands[1].name == "reset";
    assert Commands[2].name == "clear" && Commands[3].name == "help";
    assert Commands[1..][1..][1..][1..] == [];
  }

  lemma CoinsLookup(name: string)
    ensures FindSub(CoinsSubcommands, name) ==
      if name == "add" then Some(CoinsSubcommands[0])
      else if name == "remove" then Some(CoinsSubcommands[1])
      else if name == "reset" then Some(CoinsSubcommands[2])
      else None
  {
    var subs := CoinsSubcommands;
    assert subs[0].name == "add" && subs[1].name == "remove" && subs[2].name == "reset";
    assert subs[1..][1..][1..] == [];
  }

  /** A `run` function dispatches at most a coin gain or loss or a reset. */
  lemma RunHandlerActions(h: Handler, args: seq<string>)
    ensures var a := RunHandler(h, args).action;
      a.Some? ==> a.value.AddCoins? || a.value.RemoveCoins? || a.value.ResetProgress? || a.value.ResetGame?
    ensures h == ClearRun || h == HelpRun ==> RunHandler(h, args).action == None
  {
  }

  /** The actions a line can dispatch: coin gains and losses and the two
      resets; nothing else, and never more than one. */
  lemma InterpretActions(line: string)
    ensures var a := Interpret(line).action;
      a.Some? ==> a.value.AddCoins? || a.value.RemoveCoins? || a.value.ResetProgress? || a.value.ResetGame?
  {
    var parts := Tokens(line);
    var c := FindCommand(Commands, parts[0]);
    if c.Some? {
      if c.value.subcommands.Some? && HasSubName(parts) {
        var sub := FindSub(c.value.subcommands.value, parts[1]);
        if sub.Some? {
          RunHandlerActions(sub.value.run, Arguments(parts));
        }
      } else if c.value.run.Some? {
        RunHandlerActions(c.value.run.value, Arguments(parts));
      }
    }
  }

  /** An unknown first word is reported, and nothing is dispatched. */
  lemma UnknownCommand(line: string)
    requires Tokens(line)[0] !in ["coins", "reset", "clear", "help"]
    ensures Interpret(line) == Outcome([Print(Tokens(line)[0] + ": command not found")], None)
  {
    CommandLookup(Tokens(line)[0]);
  }

  /** "coins" with a second word that is no subcommand of it is reported. */
  lemma UnknownSubcommand(line: string)
    requires Tokens(line)[0] == "coins" && HasSubName(Tokens(line))
    requires Tokens(line)[1] !in ["add", "remove", "reset"]
    ensures Interpret(line) == Outcome([Print(Tokens(line)[1] + ": subcommand not found")], None)
  {
    CommandLookup("coins");
    CoinsLookup(Tokens(line)[1]);
  }

  /** "coins" without a (non-empty) second word has nothing to run. */
  lemma MissingSubcommand(line: string)
    requires Tokens(line)[0] == "coins" && !HasSubName(Tokens(line))
    ensures Interpret(line) == Outcome([Print(Tokens(line)[0] + ": missing subcommand")], None)
  {
    CommandLookup("coins");
  }

  /** The words of a line that is its words joined by single spaces, with
      non-blank ends. */
  lemma TokensOfJoin(parts: seq<string>)
    requires |parts| >= 1 && forall k :: 0 <= k < |parts| ==> ' ' !in parts[k]
    requires var line := Join(parts, ' '); |line| > 0 && !IsSpace(line[0]) && !IsSpace(line[|line| - 1])
    ensures Tokens(Join(parts, ' ')) == parts
  {
    var line := Join(parts, ' ');
    TrimOfTrimmed(line);
    SplitJoin(parts, ' ');
  }

  /** What `coins add` and `coins remove` do with the text of the amount. */
  function AmountOutcome(verb: string, text: string): Outcome
  {
    var p := ParseInt(text);
    if p.Some? then
      Outcome([Print(Confirmation(if verb == "add" then "Added" else "Removed", p.value))],
              Some(if verb == "add" then AddCoins(p.value as real) else RemoveCoins(p.value as real)))
    else
      Outcome([Print(Usage(verb))], None)
  }

  /** The two amount handlers are AmountOutcome. */
  lemma AmountHandlers(args: seq<string>)
    ensures RunHandler(AddCoinsRun, args) == AmountOutcome("add", Argument(args))
    ensures RunHandler(RemoveCoinsRun, args) == AmountOutcome("remove", Argument(args))
  {
    AddHandler(args);
    RemoveHandler(args);
  }

  lemma AddHandler(args: seq<string>)
    ensures RunHandler(AddCoinsRun, args) == AmountOutcome("add", Argument(args))
  {
    var p := ParseInt(Argument(args));
    MessagesPrinted("Added", if p.Some? then p.value else 0, "add");
  }

  lemma RemoveHandler(args: seq<string>)
    ensures RunHandler(RemoveCoinsRun, args) == AmountOutcome("remove", Argument(args))
  {
    var p := ParseInt(Argument(args));
    MessagesPrinted("Removed", if p.Some? then p.value else 0, "remove");
  }

  /** `coins add <n>` dispatches AddCoins(n) and confirms it when the amount
      parses; otherwise it logs the usage and dispatches nothing. The same
      holds of `coins remove <n>` with RemoveCoins. */
  lemma CoinsAmount(line: string)
    requires Tokens(line)[0] == "coins" && |Tokens(line)| > 1 && Tokens(line)[1] in ["add", "remove"]
    ensures Interpret(line) == AmountOutcome(Tokens(line)[1], Argument(Tokens(line)[2..]))
  {
    ExecuteAmount(Tokens(line));
  }

  lemma ExecuteAmount(parts: seq<string>)
    requires |parts| > 1 && parts[0] == "coins" && parts[1] in ["add", "remove"]
    ensures Execute(parts) == AmountOutcome(parts[1], Argument(parts[2..]))
  {
    CommandLookup("coins");
    CoinsLookup(parts[1]);
    AmountHandlers(parts[2..]);
  }

  /** The words of the sample lines used below. */
  lemma TokensCoinsAdd1000()
    ensures Tokens("coins add 1000") == ["coins", "add", "1000"]
  {
    assert Join(["1000"], ' ') == "1000";
    assert Join(["add", "1000"], ' ') == "add" + " " + "1000";
    TokenSample(["coins", "add", "1000"], "coins add 1000");
  }

  lemma TokensCoinsAdd()
    ensures Tokens("coins add") == ["coins", "add"]
  {
    assert Join(["add"], ' ') == "add";
    TokenSample(["coins", "add"], "coins add");
  }

  lemma TokensCoinsAddMinus5()
    ensures Tokens("coins add -5") == ["coins", "add", "-5"]
  {
    assert Join(["-5"], ' ') == "-5";
    assert Join(["add", "-5"], ' ') == "add" + " " + "-5";
    TokenSample(["coins", "add", "-5"], "coins add -5");
  }

  lemma TokensCoinsReset()
    ensures Tokens("coins reset") == ["coins", "reset"]
  {
    assert Join(["reset"], ' ') == "reset";
    TokenSample(["coins", "reset"], "coins reset");
  }

  lemma TokenSample(parts: seq<string>, line: string)
    requires |parts| >= 1 && forall k :: 0 <= k < |parts| ==> ' ' !in parts[k]
    requires line == Join(parts, ' ') && |line| > 0 && !IsSpace(line[0]) && !IsSpace(line[|line| - 1])
    ensures Tokens(line) == parts
  {
    TokensOfJoin(parts);
  }

  /** A line of one word without spaces is that word. */
  lemma TokensOfWord(w: string)
    requires |w| > 0 && ' ' !in w && !IsSpace(w[0]) && !IsSpace(w[|w| - 1])
    ensures Tokens(w) == [w]
  {
    assert Join([w], ' ') == w;
    TokensOfJoin([w]);
  }

  /** `coins add 1000` adds 1000 coins and says so. */
  lemma CoinsAddExample()
    ensures Interpret("coins add 1000") == Outcome([Print("\U{2714} Added 1000 coins")], Some(AddCoins(1000.0)))
  {
    TokensCoinsAdd1000();
    ExecuteThousand();
  }

  lemma ExecuteThousand()
    ensures Execute(["coins", "add", "1000"]) == Outcome([Print("\U{2714} Added 1000 coins")], Some(AddCoins(1000.0)))
  {
    ExecuteAmount(["coins", "add", "1000"]);
    assert ["coins", "add", "1000"][2..] == ["1000"];
    AmountOfThousand();
  }

  lemma AmountOfThousand()
    ensures AmountOutcome("add", "1000") == Outcome([Print("\U{2714} Added 1000 coins")], Some(AddCoins(1000.0)))
  {
    ParseIntToString(1000);
    ThousandRendered();
    AddedThousandText();
  }

  lemma AddedThousandText()
    ensures Confirmation("Added", 1000) == "\U{2714} Added 1000 coins"
  {
    ThousandRendered();
    assert "\U{2714} " + "Added" + " " + "1000" + " coins" == "\U{2714} Added 1000 coins";
  }

  /** 1000 renders as "1000" and -5 as "-5". */
  lemma ThousandRendered()
    ensures IntToString(1000) == "1000" && IntToString(-5) == "-5"
  {
    assert NatToString(1) == "1" && NatToString(5) == "5";
    assert NatToString(10) == NatToString(1) + "0";
    assert NatToString(100) == NatToString(10) + "0";
    assert NatToString(1000) == NatToString(100) + "0";
  }

  /** `coins add` with no amount logs the usage. */
  lemma CoinsAddWithoutAmount()
    ensures Interpret("coins add") == Outcome([Print("\U{2716} Invalid amount. Usage: coins add <amount>")], None)
  {
    TokensCoinsAdd();
    ExecuteAddAlone();
  }

  lemma ExecuteAddAlone()
    ensures Execute(["coins", "add"]) == Outcome([Print("\U{2716} Invalid amount. Usage: coins add <amount>")], None)
  {
    ExecuteAmount(["coins", "add"]);
    assert ["coins", "add"][2..] == [];
    AmountMissing();
  }

  lemma AmountMissing()
    ensures AmountOutcome("add", "undefined") == Outcome([Print("\U{2716} Invalid amount. Usage: coins add <amount>")], None)
  {
    ParseIntUndefined();
    AddUsageText();
  }

  lemma AddUsageText()
    ensures Usage("add") == "\U{2716} Invalid amount. Usage: coins add <amount>"
  {
  }

  /** `coins add -5` is accepted: the reducer adds the negative amount, so
      the coins can fall below zero although RemoveCoins would clamp. */
  lemma NegativeAddLowersCoins(s: GameState)
    ensures Interpret("coins add -5").action == Some(AddCoins(-5.0))
    ensures Reduce(s, AddCoins(-5.0)).coins == s.coins - 5.0
    ensures s.coins == 0.0 ==> !Valid(Reduce(s, AddCoins(-5.0)))
  {
    TokensCoinsAddMinus5();
    ExecuteMinusFive();
  }

  lemma ExecuteMinusFive()
    ensures Execute(["coins", "add", "-5"]).action == Some(AddCoins(-5.0))
  {
    ExecuteAmount(["coins", "add", "-5"]);
    assert ["coins", "add", "-5"][2..] == ["-5"];
    AmountOfMinusFive();
  }

  lemma AmountOfMinusFive()
    ensures AmountOutcome("add", "-5").action == Some(AddCoins(-5.0))
  {
    ParseIntToString(-5);
    ThousandRendered();
  }

  /** `coins reset` forgets the run's progress. */
  lemma CoinsResetCommand()
    ensures Interpret("coins reset") == Outcome([], Some(ResetProgress))
  {
    TokensCoinsReset();
    ExecuteCoinsReset();
  }

  lemma ExecuteCoinsReset()
    ensures Execute(["coins", "reset"]) == Outcome([], Some(ResetProgress))
  {
    CommandLookup("coins");
    CoinsLookup("reset");
  }

  /** `reset` restarts the game. */
  lemma ResetCommand()
    ensures Interpret("reset") == Outcome([], Some(ResetGame))
  {
    TokensOfWord("reset");
    ExecuteReset();
  }

  lemma ExecuteReset()
    ensures Execute(["reset"]) == Outcome([], Some(ResetGame))
  {
    CommandLookup("reset");
  }

  /** `clear` empties the log. */
  lemma ClearCommand()
    ensures Interpret("clear") == Outcome([ClearAll], None)
  {
    TokensOfWord("clear");
    ExecuteClear();
  }

  lemma ExecuteClear()
    ensures Execute(["clear"]) == Outcome([ClearAll], None)
  {
    CommandLookup("clear");
  }

  /** `help` logs the table's lines. */
  lemma HelpCommand()
    ensures Interpret("help") == Outcome(LoggedAll(HelpLines(Commands)), None)
  {
    TokensOfWord("help");
    ExecuteHelp();
  }

  lemma ExecuteHelp()
    ensures Execute(["help"]) == Outcome(LoggedAll(HelpLines(Commands)), None)
  {
    CommandLookup("help");
  }

  /** The result of `slice(prefix.length)` on the first name starting with
      `prefix`, or "" when none does. */
  function Complete(names: seq<string>, prefix: string): (r: string)
    ensures (forall i :: 0 <= i < |names| ==> !StartsWith(names[i], prefix)) ==> r == ""
    ensures forall i :: (0 <= i < |names| && StartsWith(names[i], prefix) &&
      (forall j :: 0 <= j < i ==> !StartsWith(names[j], prefix))) ==> prefix + r == names[i]
  {
    if |names| == 0 then ""
    else if StartsWith(names[0], prefix) then
      assert names[0] == names[0][..|prefix|] + names[0][|prefix|..];
      names[0][|prefix|..]
    else
      var r := Complete(names[1..], prefix);
      assert forall i :: 1 <= i < |names| ==> names[1..][i - 1] == names[i];
      r
  }

  /** The names the completion scans: exactly the names `find` finds a
      command for, in table order. */
  function CommandNames(cs: seq<Command>): (r: seq<string>)
    ensures |r| == |cs| && forall i :: 0 <= i < |cs| ==> r[i] == cs[i].name
    ensures forall n :: n in r <==> FindCommand(cs, n).Some?
  {
    seq(|cs|, i requires 0 <= i < |cs| => cs[i].name)
  }

  /** The subcommand names the completion scans: exactly the names `find`
      finds a subcommand for, in table order. */
  function SubNames(subs: seq<SubCommand>): (r: seq<string>)
    ensures |r| == |subs| && forall i :: 0 <= i < |subs| ==> r[i] == subs[i].name
    ensures forall n :: n in r <==> FindSub(subs, n).Some?
  {
    seq(|subs|, i requires 0 <= i < |subs| => subs[i].name)
  }

  /** The suggestion after the input changes to `value`: nothing for an empty
      input; for one word, the rest of the first command name it starts; for
      two words after a command with subcommands, the rest of the first
      subcommand name the second word starts; otherwise it stays as it was. */
  function Suggest(value: string, current: string): string
  {
    if value == "" then ""
    else
      var parts := Split(value, ' ');
      if |parts| == 1 then Complete(CommandNames(Commands), parts[0])
      else if |parts| == 2 then
        match FindCommand(Commands, parts[0])
        case Some(c) =>
          if c.subcommands.Some? then Complete(SubNames(c.subcommands.value), parts[1]) else current
        case None => current
      else current
  }

  /** Accepting a one-word suggestion completes the word to a command name,
      and an empty suggestion means no command name extends it. */
  lemma SuggestionCompletesCommand(value: string, current: string)
    requires value != "" && ' ' !in value
    ensures var r := Suggest(value, current);
      (r != "" ==> exists i :: 0 <= i < |Commands| && value + r == Commands[i].name) &&
      (r == "" ==> forall i :: 0 <= i < |Commands| && StartsWith(Commands[i].name, value) ==>
        exists j :: 0 <= j <= i && Commands[j].name == value)
  {
    var names := CommandNames(Commands);
    var r := Suggest(value, current);
    assert Split(value, ' ') == [value];
    assert r == Complete(names, value);
    if exists i :: 0 <= i < |names| && StartsWith(names[i], value) {
      var i := FirstStarting(names, value);
      assert value + r == names[i];
    }
  }

  /** The first name that starts with `prefix`. */
  lemma FirstStarting(names: seq<string>, prefix: string) returns (i: int)
    requires exists k :: 0 <= k < |names| && StartsWith(names[k], prefix)
    ensures 0 <= i < |names| && StartsWith(names[i], prefix)
    ensures forall j :: 0 <= j < i ==> !StartsWith(names[j], prefix)
  {
    var k :| 0 <= k < |names| && StartsWith(names[k], prefix);
    i := 0;
    while !StartsWith(names[i], prefix)
      invariant 0 <= i <= k
      invariant forall j :: 0 <= j < i ==> !StartsWith(names[j], prefix)
      decreases k - i
    {
      i := i + 1;
    }
  }

  /** An empty input has no suggestion. */
  lemma SuggestEmpty(current: string)
    ensures Suggest("", current) == ""
  {
  }

  /** "co" is completed to "coins"; "x" starts no command. */
  lemma SuggestCommandExamples(current: string)
    ensures Suggest("co", current) == "ins"
    ensures Suggest("x", current) == ""
  {
    assert Split("co", ' ') == ["co"];
    assert StartsWith("coins", "co") && "coins"[2..] == "ins";
    assert Split("x", ' ') == ["x"];
    NoCommandStartsWithX();
  }

  lemma NoCommandStartsWithX()
    ensures !StartsWith("coins", "x") && !StartsWith("reset", "x")
    ensures !StartsWith("clear", "x") && !StartsWith("help", "x")
  {
    assert "coins"[..1][0] == 'c' && "reset"[..1][0] == 'r';
    assert "clear"[..1][0] == 'c' && "help"[..1][0] == 'h';
  }

  /** "coins a" is completed to "coins add". */
  lemma SuggestSubcommandExample(current: string)
    ensures Suggest("coins a", current) == "dd"
  {
    SplitJoin(["coins", "a"], ' ');
    assert Join(["coins", "a"], ' ') == "coins a";
    CommandLookup("coins");
    assert StartsWith("add", "a") && "add"[1..] == "dd";
  }

  /** A second word after a command without subcommands keeps the old
      suggestion. */
  lemma SuggestKeepsExample(current: string)
    ensures Suggest("reset x", current) == current
  {
    SplitJoin(["reset", "x"], ' ');
    assert Join(["reset", "x"], ' ') == "reset x";
    CommandLookup("reset");
  }

  /** ArrowUp: one entry further back, stopping at the oldest. */
  function CursorUp(place: int, len: int): (next: int)
    requires len > 0
    ensures next <= len - 1
    ensures place >= -1 ==> next >= 0
    ensures place + 1 <= len - 1 ==> next == place + 1
    ensures place + 1 > len - 1 ==> next == len - 1
  {
    if place + 1 <= len - 1 then place + 1 else len - 1
  }

  /** ArrowDown: one entry nearer, stopping at the newest. */
  function CursorDown(place: int): (next: int)
    ensures next >= 0
    ensures place - 1 >= 0 ==> next == place - 1
    ensures place - 1 < 0 ==> next == 0
  {
    if place - 1 >= 0 then place - 1 else 0
  }

  /** From any valid cursor both keys land on an entry, and pressing ArrowUp
      once per entry reaches the oldest one. */
  lemma CursorStaysInHistory(place: int, len: int)
    requires len > 0 && -1 <= place <= len - 1
    ensures 0 <= CursorUp(place, len) <= len - 1
    ensures 0 <= CursorDown(place) <= len - 1
    ensures CursorUp(place, len) >= place && CursorDown(place) <= place + 1
    ensures CursorUp(CursorUp(place, len), len) == CursorUp(place, len) ==> CursorUp(place, len) == len - 1
  {
  }

  datatype Key = Tab | ArrowRight | ArrowUp | ArrowDown | OtherKey

  /** The terminal window's state. The banner first shown is a parameter. */
  class TerminalView {
    var logs: seq<string>
    var input: string
    var suggestion: string
    var history: seq<string>
    var historyPlace: int

    /** The history cursor is -1 (before the newest entry) or an entry. */
    ghost predicate Valid()
      reads this
    {
      -1 <= historyPlace <= |history| - 1
    }

    constructor (banner: string)
      ensures Valid()
      ensures logs == [banner] && input == "" && suggestion == "" && history == [] && historyPlace == -1
    {
      logs := [banner];
      input := "";
      suggestion := "";
      history := [];
      historyPlace := -1;
    }

    /** The `log` callback handed to the `run` functions. */
    method Log(msg: string)
      modifies this
      ensures logs == ApplyLog(old(logs), Logged(msg))
      ensures input == old(input) && suggestion == old(suggestion)
      ensures history == old(history) && historyPlace == old(historyPlace)
    {
      if msg == ClearMarker {
        logs := [];
      } else {
        logs := logs + [msg];
      }
    }

    /** `help`: for each command its line, then its subcommands' lines. */
    method RunHelp()
      modifies this
      ensures logs == old(logs) + HelpLines(Commands)
      ensures input == old(input) && suggestion == old(suggestion)
      ensures history == old(history) && historyPlace == old(historyPlace)
    {
      CommandNamesPlain();
      LogCommands(Commands);
    }

    /** The help of every command in `cs`, in order. */
    method LogCommands(cs: seq<Command>)
      requires forall i :: 0 <= i < |cs| ==> |cs[i].name| > 0 && cs[i].name[0] != '_'
      modifies this
      ensures logs == old(logs) + HelpLines(cs)
      ensures input == old(input) && suggestion == old(suggestion)
      ensures history == old(history) && historyPlace == old(historyPlace)
    {
      for i := 0 to |cs|
        invariant logs == old(logs) + HelpLines(cs[..i])
        invariant input == old(input) && suggestion == old(suggestion)
        invariant history == old(history) && historyPlace == old(historyPlace)
      {
        LogCommand(cs[i]);
        assert cs[..i + 1][..i] == cs[..i];
      }
      assert cs[..|cs|] == cs;
    }

    /** One command's help: its own line, then one line per subcommand. */
    method LogCommand(cmd: Command)
      requires |cmd.name| > 0 && cmd.name[0] != '_'
      modifies this
      ensures logs == old(logs) + CommandLines(cmd)
      ensures input == old(input) && suggestion == old(suggestion)
      ensures history == old(history) && historyPlace == old(historyPlace)
    {
      var line := cmd.name + " - " + cmd.description;
      assert line[0] == cmd.name[0];
      Log(line);
      if cmd.subcommands.Some? {
        LogSubcommands(cmd.subcommands.value);
      }
    }

    method LogSubcommands(subs: seq<SubCommand>)
      modifies this
      ensures logs == old(logs) + SubLines(subs)
      ensures input == old(input) && suggestion == old(suggestion)
      ensures history == old(history) && historyPlace == old(historyPlace)
    {
      for j := 0 to |subs|
        invariant logs == old(logs) + SubLines(subs[..j])
        invariant input == old(input) && suggestion == old(suggestion)
        invariant history == old(history) && historyPlace == old(historyPlace)
      {
        var subLine := "  " + subs[j].name + " - " + subs[j].description;
        assert subLine[0] == ' ';
        Log(subLine);
        assert SubLines(subs[..j + 1]) == SubLines(subs[..j]) + [subLine];
      }
      assert subs[..|subs|] == subs;
    }

    /** The `run` of `coins add` (verb "add") or `coins remove`: parse the
        amount, dispatch it and confirm, or log the usage. */
    method RunAmount(verb: string, args: seq<string>, store: GameStore.Store)
      requires store.Valid()
      modifies this, store
      ensures store.Valid() && store.start == old(store.start)
      ensures logs == ApplyLogs(old(logs), AmountOutcome(verb, Argument(args)).output)
      ensures store.dispatched == old(store.dispatched) + OptionToSeq(AmountOutcome(verb, Argument(args)).action)
      ensures store.state == ApplyAll(old(store.state), OptionToSeq(AmountOutcome(verb, Argument(args)).action))
      ensures input == old(input) && suggestion == old(suggestion)
      ensures history == old(history) && historyPlace == old(historyPlace)
    {
      ghost var l0 := logs;
      var amount := ParseInt(Argument(args));
      if amount.Some? {
        var past := if verb == "add" then "Added" else "Removed";
        store.Dispatch(if verb == "add" then AddCoins(amount.value as real) else RemoveCoins(amount.value as real));
        Log(Confirmation(past, amount.value));
        MessagesPrinted(past, amount.value, verb);
        assert logs == ApplyLogs(l0, [Print(Confirmation(past, amount.value))]);
      } else {
        Log(Usage(verb));
        MessagesPrinted("", 0, verb);
        assert logs == ApplyLogs(l0, [Print(Usage(verb))]);
      }
    }

    /** A `run` function, with this terminal's log and the game's dispatch. */
    method Run(h: Handler, args: seq<string>, store: GameStore.Store)
      requires store.Valid()
      modifies this, store
      ensures store.Valid() && store.start == old(store.start)
      ensures logs == ApplyLogs(old(logs), RunHandler(h, args).output)
      ensures store.dispatched == old(store.dispatched) + OptionToSeq(RunHandler(h, args).action)
      ensures store.state == ApplyAll(old(store.state), OptionToSeq(RunHandler(h, args).action))
      ensures input == old(input) && suggestion == old(suggestion)
      ensures history == old(history) && historyPlace == old(historyPlace)
    {
      ghost var l0 := logs;
      match h
      case AddCoinsRun =>
        RunAmount("add", args, store);
        AddHandler(args);
      case RemoveCoinsRun =>
        RunAmount("remove", args, store);
        RemoveHandler(args);
      case ResetCoinsRun =>
        store.Dispatch(ResetProgress);
      case ResetGameRun =>
        store.Dispatch(ResetGame);
      case ClearRun =>
        Log(ClearMarker);
      case HelpRun =>
        RunHelp();
        CommandNamesPlain();
        HelpLinesArePrinted(Commands);
        LoggedAllAppends(l0, HelpLines(Commands));
    }

    /** `runCommand`: record the line in the history, then interpret it. */
    method RunCommand(line: string, store: GameStore.Store)
      requires Valid() && store.Valid()
      modifies this, store
      ensures Valid() && store.Valid() && store.start == old(store.start)
      ensures history == [line] + old(history) && historyPlace == old(historyPlace)
      ensures input == old(input) && suggestion == old(suggestion)
      ensures logs == ApplyLogs(old(logs), Interpret(line).output)
      ensures store.dispatched == old(store.dispatched) + OptionToSeq(Interpret(line).action)
      ensures store.state == ApplyAll(old(store.state), OptionToSeq(Interpret(line).action))
    {
      var parts := Split(Trim(line), " "[0]);
      var cmdName := parts[0];
      var args := Arguments(parts);
      history := [line] + history;
      var command := FindCommand(Commands, cmdName);
      if command.None? {
        logs := logs + [cmdName + ": command not found"];
        return;
      }
      var cmd := command.value;
      if cmd.subcommands.Some? && HasSubName(parts) {
        var sub := FindSub(cmd.subcommands.value, parts[1]);
        if sub.Some? {
          Run(sub.value.run, args, store);
        } else {
          logs := logs + [parts[1] + ": subcommand not found"];
        }
      } else if cmd.run.Some? {
        Run(cmd.run.value, args, store);
      } else {
        logs := logs + [cmdName + ": missing subcommand"];
      }
    }

    /** Submitting the form: a blank input does nothing; otherwise the line
        is echoed after the prompt, run, and the input emptied. */
    method Submit(store: GameStore.Store)
      requires Valid() && store.Valid()
      modifies this, store
      ensures Valid() && store.Valid() && store.start == old(store.start)
      ensures suggestion == old(suggestion) && historyPlace == old(historyPlace)
      ensures Trim(old(input)) == "" ==>
        logs == old(logs) && input == old(input) && history == old(history) &&
        store.dispatched == old(store.dispatched) && store.state == old(store.state)
      ensures Trim(old(input)) != "" ==>
        logs == ApplyLogs(old(logs) + ["dev@clicker:~# " + old(input)], Interpret(old(input)).output) &&
        history == [old(input)] + old(history) && input == "" &&
        store.dispatched == old(store.dispatched) + OptionToSeq(Interpret(old(input)).action)
    {
      if Trim(input) == "" {
        return;
      }
      logs := logs + ["dev@clicker:~# " + input];
      RunCommand(input, store);
      input := "";
    }

    /** `handleInputChange`: the new input and its suggestion. */
    method InputChange(value: string)
      modifies this
      ensures input == value && suggestion == Suggest(value, old(suggestion))
      ensures logs == old(logs) && history == old(history) && historyPlace == old(historyPlace)
    {
      input := value;
      if value == "" {
        suggestion := "";
        return;
      }
      var parts := Split(value, ' ');
      if |parts| == 1 {
        suggestion := Complete(CommandNames(Commands), parts[0]);
      } else if |parts| == 2 {
        var command := FindCommand(Commands, parts[0]);
        if command.Some? && command.value.subcommands.Some? {
          suggestion := Complete(SubNames(command.value.subcommands.value), parts[1]);
        }
      }
    }

    /** `handleKeyDown`: Tab and ArrowRight accept a pending suggestion;
        ArrowUp and ArrowDown move the history cursor and show that entry. */
    method KeyDown(key: Key)
      requires Valid()
      modifies this
      ensures Valid()
      ensures logs == old(logs) && history == old(history)
      ensures (key == Tab || key == ArrowRight) && old(suggestion) != "" ==>
        input == old(input) + old(suggestion) && suggestion == "" && historyPlace == old(historyPlace)
      ensures key == ArrowUp && |history| > 0 ==>
        historyPlace == CursorUp(old(historyPlace), |history|) && input == history[historyPlace] &&
        suggestion == old(suggestion)
      ensures key == ArrowDown && |history| > 0 ==>
        historyPlace == CursorDown(old(historyPlace)) && input == history[historyPlace] &&
        suggestion == old(suggestion)
      ensures (key == OtherKey || (|history| == 0 && (key == ArrowUp || key == ArrowDown)) ||
        ((key == Tab || key == ArrowRight) && old(suggestion) == "")) ==>
        input == old(input) && suggestion == old(suggestion) && historyPlace == old(historyPlace)
    {
      if key == Tab || key == ArrowRight {
        if suggestion != "" {
          input := input + suggestion;
          suggestion := "";
        }
      }
      if key == ArrowUp && |history| > 0 {
        var next := CursorUp(historyPlace, |history|);
        input := history[next];
        historyPlace := next;
      }
      if key == ArrowDown && |history| > 0 {
        var next := CursorDown(historyPlace);
        input := history[next];
        historyPlace := next;
      }
    }
  }

  function OptionToSeq(a: Option<Action>): seq<Action>
  {
    if a.Some? then [a.value] else []
  }
}
