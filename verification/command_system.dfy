/**
 * The terminal's command interpreter (assets/components/CommandSystem.tsx):
 * a command line is trimmed and split on single spaces, the first token is
 * lower-cased and looked up among the built-in commands and then the
 * caller's custom commands; the reply is shown under the line typed, and
 * the arrow keys walk back through earlier lines.
 *
 * A command is a name, a description and an `execute` closure.  What a
 * closure does to the outside world (switching the theme, changing the
 * message, clearing the output, and so on) comes back as an `Effect` beside
 * the reply text, and whatever it reads at run time (the theme, the clock,
 * the stored user name) comes in as a `Context`.
 */
module Commands {
  import opened Wrappers
  import opened Text
  import opened Seqs

  datatype Effect =
    | NoEffect
    | SetTheme(theme: string)
    | ChangeMessage(message: string)
    | ClearOutput
    | OpenDraggable
    | CloseDraggable
    | Logout
    | Shutdown

  datatype Reply = Reply(text: string, effect: Effect)

  /** What a command may read when it runs. */
  datatype Context = Context(theme: string, dateText: string, localeDateText: string, username: Option<string>)

  datatype Command = Command(name: string, description: string, execute: (Context, seq<string>) -> Reply)

  datatype Entry = Entry(name: string, description: string)

  /** One line typed and the reply shown under it. */
  datatype OutputEntry = OutputEntry(input: string, output: string)

  function EntriesOf(cmds: seq<Command>): (r: seq<Entry>)
    ensures |r| == |cmds|
    ensures forall i :: 0 <= i < |cmds| ==> r[i] == Entry(cmds[i].name, cmds[i].description)
  {
    seq(|cmds|, i requires 0 <= i < |cmds| => Entry(cmds[i].name, cmds[i].description))
  }

  // -------------------------------------------------------------------------
  // The built-in commands

  const HelpHeader := "Available commands:\n"
  const MessageUsage := "Usage: message [your new message]"
  const MessageUnavailable := "Unable to change message"

  const DefaultEntries: seq<Entry> := [
    Entry("help", "Display available commands"),
    Entry("clear", "Clear the terminal"),
    Entry("theme", "Switch theme (light/dark)"),
    Entry("message", "Change the displayed message"),
    Entry("echo", "Display a message"),
    Entry("date", "Display the current date and time")
  ]

  function ListingLine(e: Entry): string {
    e.name + ": " + e.description
  }

  function ListingLines(entries: seq<Entry>): (r: seq<string>)
    ensures |r| == |entries|
    ensures forall i :: 0 <= i < |entries| ==> r[i] == ListingLine(entries[i])
  {
    seq(|entries|, i requires 0 <= i < |entries| => ListingLine(entries[i]))
  }

  /** The built-in `help`: a header and one "name: description" line per command, built-ins first. */
  function DefaultHelpText(customs: seq<Command>): string {
    HelpHeader + Join(ListingLines(DefaultEntries + EntriesOf(customs)), "\n")
  }

  /** The built-in `theme`: report with no argument, switch on "dark" or "light" in any case, refuse anything else. */
  function ThemeReply(ctx: Context, args: seq<string>): (r: Reply)
    ensures |args| == 0 ==> r == Reply("Current theme: " + ctx.theme + ". Usage: theme [dark|light]", NoEffect)
    ensures |args| > 0 && (Lower(args[0]) == "dark" || Lower(args[0]) == "light") ==>
      r == Reply("Theme switched to " + Lower(args[0]), SetTheme(Lower(args[0])))
    ensures |args| > 0 && Lower(args[0]) != "dark" && Lower(args[0]) != "light" ==>
      r == Reply("Invalid theme: " + Lower(args[0]) + ". Available options: dark, light", NoEffect)
    ensures r.effect.SetTheme? <==> |args| > 0 && (Lower(args[0]) == "dark" || Lower(args[0]) == "light")
    ensures r.effect.SetTheme? ==> r.effect.theme in {"dark", "light"}
  {
    if |args| > 0 then
      var requested := Lower(args[0]);
      if requested == "dark" || requested == "light" then
        Reply("Theme switched to " + requested, SetTheme(requested))
      else
        Reply("Invalid theme: " + requested + ". Available options: dark, light", NoEffect)
    else
      Reply("Current theme: " + ctx.theme + ". Usage: theme [dark|light]", NoEffect)
  }

  /** The theme argument's letter case plays no part, and only its first word counts. */
  lemma ThemeIgnoresCase(ctx: Context, word: string, rest: seq<string>, other: seq<string>)
    ensures ThemeReply(ctx, [word] + rest) == ThemeReply(ctx, [Lower(word)] + other)
  {
    LowerIdempotent(word);
  }

  /** The built-in `message`: the arguments joined by spaces become the message, when a handler exists. */
  function MessageReply(hasMessageHandler: bool, args: seq<string>): (r: Reply)
    ensures |args| == 0 ==> r == Reply(MessageUsage, NoEffect)
    ensures |args| > 0 && !hasMessageHandler ==> r == Reply(MessageUnavailable, NoEffect)
    ensures |args| > 0 && hasMessageHandler ==>
      r == Reply("Message updated to: \"" + Join(args, " ") + "\"", ChangeMessage(Join(args, " ")))
  {
    if |args| == 0 then Reply(MessageUsage, NoEffect)
    else
      var newMessage := Join(args, " ");
      if hasMessageHandler then Reply("Message updated to: \"" + newMessage + "\"", ChangeMessage(newMessage))
      else Reply(MessageUnavailable, NoEffect)
  }

  /** The six built-in commands; `help` lists them and the custom commands. */
  function DefaultCommands(customs: seq<Command>, hasMessageHandler: bool): (r: seq<Command>)
    ensures EntriesOf(r) == DefaultEntries
  {
    [
      Command("help", "Display available commands", (ctx: Context, args: seq<string>) => Reply(DefaultHelpText(customs), NoEffect)),
      Command("clear", "Clear the terminal", (ctx: Context, args: seq<string>) => Reply("", ClearOutput)),
      Command("theme", "Switch theme (light/dark)", (ctx: Context, args: seq<string>) => ThemeReply(ctx, args)),
      Command("message", "Change the displayed message", (ctx: Context, args: seq<string>) => MessageReply(hasMessageHandler, args)),
      Command("echo", "Display a message", (ctx: Context, args: seq<string>) => Reply(Join(args, " "), NoEffect)),
      Command("date", "Display the current date and time", (ctx: Context, args: seq<string>) => Reply(ctx.dateText, NoEffect))
    ]
  }

  /** The commands a line is looked up in: built-ins first, then the custom ones. */
  function Available(customs: seq<Command>, hasMessageHandler: bool): (r: seq<Command>)
    ensures |r| == |DefaultEntries| + |customs|
    ensures EntriesOf(r[..|DefaultEntries|]) == DefaultEntries
    ensures r[|DefaultEntries|..] == customs
  {
    var d := DefaultCommands(customs, hasMessageHandler);
    var r := d + customs;
    assert r[..|d|] == d && r[|d|..] == customs;
    r
  }

  // -------------------------------------------------------------------------
  // Running a line

  /**
   * The trimmed line split on single spaces: the name is the first token in
   * lower case, the arguments are the remaining tokens in order. No token
   * holds a space, and the tokens joined by single spaces give back the
   * trimmed line.
   */
  function Tokenize(text: string): (r: (string, seq<string>))
    ensures var first := Split(Trim(text), ' ')[0];
      r.0 == Lower(first) && r.0 == Lower(r.0) && ' ' !in first
    ensures forall k :: 0 <= k < |r.1| ==> ' ' !in r.1[k]
    ensures Join([Split(Trim(text), ' ')[0]] + r.1, " ") == Trim(text)
  {
    var parts := Split(Trim(text), ' ');
    LowerIdempotent(parts[0]);
    SplitPartsFree(Trim(text), ' ');
    JoinSplit(Trim(text), ' ');
    assert [parts[0]] + parts[1..] == parts;
    (Lower(parts[0]), parts[1..])
  }

  function CommandName(text: string): string {
    Tokenize(text).0
  }

  function NotFoundText(name: string): string {
    "Command not found: " + name + ". Type 'help' to see available commands."
  }

  /** The first command with the line's name runs; an empty name answers nothing; any other is not found. */
  function ExecuteReply(available: seq<Command>, ctx: Context, text: string): (r: Reply)
    ensures var name := CommandName(text);
      (forall i :: 0 <= i < |available| ==> available[i].name != name) ==>
        r == (if name == "" then Reply("", NoEffect) else Reply(NotFoundText(name), NoEffect))
  {
    var (name, args) := Tokenize(text);
    match Find(available, (c: Command) => c.name == name)
    case Some(c) => c.execute(ctx, args)
    case None => if name == "" then Reply("", NoEffect) else Reply(NotFoundText(name), NoEffect)
  }

  /** The first command carrying the line's name runs, given the rest of the line as its arguments. */
  lemma ExecuteRunsFirstMatch(available: seq<Command>, ctx: Context, text: string, k: nat)
    requires k < |available| && available[k].name == CommandName(text)
    requires forall j :: 0 <= j < k ==> available[j].name != CommandName(text)
    ensures ExecuteReply(available, ctx, text) == available[k].execute(ctx, Tokenize(text).1)
  {
    FindFirst(available, (c: Command) => c.name == CommandName(text), k);
  }

  /** A built-in command wins over a custom command of the same name. */
  lemma DefaultsShadowCustoms(customs: seq<Command>, hasMessageHandler: bool, k: nat)
    requires k < 6
    ensures var d := DefaultCommands(customs, hasMessageHandler);
      Find(Available(customs, hasMessageHandler), (c: Command) => c.name == DefaultEntries[k].name) == Some(d[k])
  {
    var d := DefaultCommands(customs, hasMessageHandler);
    var all := Available(customs, hasMessageHandler);
    var p := (c: Command) => c.name == DefaultEntries[k].name;
    assert EntriesOf(d) == DefaultEntries;
    assert forall j :: 0 <= j < 6 ==> d[j].name == DefaultEntries[j].name;
    assert all[k] == d[k];
    assert p(all[k]);
    assert forall j :: 0 <= j < k ==> !p(all[j]);
    FindFirst(all, p, k);
  }

  /** A line whose command name is "clear" always runs the built-in `clear`, which empties the output. */
  lemma ClearClears(customs: seq<Command>, hasMessageHandler: bool, ctx: Context, text: string)
    requires CommandName(text) == "clear"
    ensures ExecuteReply(Available(customs, hasMessageHandler), ctx, text) == Reply("", ClearOutput)
  {
    var d := DefaultCommands(customs, hasMessageHandler);
    var all := Available(customs, hasMessageHandler);
    assert all[0] == d[0] && all[1] == d[1];
    ExecuteRunsFirstMatch(all, ctx, text, 1);
  }

  /** Letter case in the command name does not matter. */
  lemma NameIgnoresCase(available: seq<Command>, ctx: Context, a: string, b: string)
    requires CommandName(a) == CommandName(b) && Tokenize(a).1 == Tokenize(b).1
    ensures ExecuteReply(available, ctx, a) == ExecuteReply(available, ctx, b)
  {
  }

  /** A line of the form "echo <rest>" answers <rest> unchanged, however many spaces it holds. */
  lemma EchoReturnsRest(customs: seq<Command>, hasMessageHandler: bool, ctx: Context, rest: string)
    requires rest != [] && !IsSpace(rest[|rest| - 1])
    ensures ExecuteReply(Available(customs, hasMessageHandler), ctx, "echo " + rest) == Reply(rest, NoEffect)
  {
    TokenizeEcho(rest);
    DefaultsShadowCustoms(customs, hasMessageHandler, 4);
    JoinSplit(rest, ' ');
  }

  lemma TokenizeEcho(rest: string)
    requires rest != [] && !IsSpace(rest[|rest| - 1])
    ensures Tokenize("echo " + rest) == ("echo", Split(rest, ' '))
  {
    EchoTrim(rest);
    EchoSplit(rest);
    EchoWord();
  }

  lemma EchoTrim(rest: string)
    requires rest != [] && !IsSpace(rest[|rest| - 1])
    ensures Trim("echo " + rest) == "echo " + rest
  {
    var text := "echo " + rest;
    assert text[0] == 'e' && text[|text| - 1] == rest[|rest| - 1];
    TrimUnpadded(text);
  }

  lemma EchoSplit(rest: string)
    ensures Split("echo " + rest, ' ') == ["echo"] + Split(rest, ' ')
  {
    EchoWord();
    assert "echo " + rest == "echo" + [' '] + rest;
    SplitAfter("echo", ' ', rest);
  }

  lemma EchoWord()
    ensures Lower("echo") == "echo" && ' ' !in "echo" && "echo " == "echo" + [' ']
  {
  }

  /** A line that is empty or only white space answers nothing. */
  lemma BlankLineAnswersNothing(available: seq<Command>, ctx: Context, text: string)
    requires forall i :: 0 <= i < |text| ==> IsSpace(text[i])
    requires forall i :: 0 <= i < |available| ==> available[i].name != ""
    ensures ExecuteReply(available, ctx, text) == Reply("", NoEffect)
  {
    assert Trim(text) == "";
    assert Split("", ' ') == [""];
    assert Lower("") == "";
  }

  // -------------------------------------------------------------------------
  // The component

  class CommandSystem {
    var commandHistory: seq<string>
    var historyIndex: int
    var inputValue: string
    var commandOutput: seq<OutputEntry>

    /** The recall position is -1 (not recalling) or counts back from the newest line. */
    ghost predicate Valid()
      reads this
    {
      -1 <= historyIndex < |commandHistory|
    }

    constructor ()
      ensures commandHistory == [] && historyIndex == -1 && inputValue == "" && commandOutput == []
      ensures Valid()
    {
      commandHistory := [];
      historyIndex := -1;
      inputValue := "";
      commandOutput := [];
    }

    /**
     * Runs a line: it always joins the history; `clear` empties the output
     * and adds nothing, any other line adds itself and its reply; the input
     * box is emptied; the reply's effect goes back to the caller.
     */
    method ExecuteCommand(customs: seq<Command>, hasMessageHandler: bool, ctx: Context, commandText: string)
      returns (effect: Effect)
      requires Valid()
      modifies this
      ensures Valid()
      ensures commandHistory == old(commandHistory) + [commandText]
      ensures var reply := ExecuteReply(Available(customs, hasMessageHandler), ctx, commandText);
        && effect == reply.effect
        && (CommandName(commandText) == "clear" ==> commandOutput == [])
        && (CommandName(commandText) != "clear" ==>
              commandOutput == (if reply.effect == ClearOutput then [] else old(commandOutput))
                               + [OutputEntry(commandText, reply.text)])
      ensures inputValue == "" && historyIndex == old(historyIndex)
    {
      commandHistory := commandHistory + [commandText];
      var commandName := CommandName(commandText);
      var reply := ExecuteReply(Available(customs, hasMessageHandler), ctx, commandText);
      effect := reply.effect;
      if effect == ClearOutput {
        commandOutput := [];
      }
      if commandName != "clear" {
        commandOutput := commandOutput + [OutputEntry(commandText, reply.text)];
      } else {
        ClearClears(customs, hasMessageHandler, ctx, commandText);
      }
      inputValue := "";
    }

    /**
     * Arrow up recalls one line further back, arrow down one line nearer;
     * stepping down onto the newest line empties the box instead of showing it.
     */
    method NavigateHistory(up: bool)
      requires Valid()
      modifies this
      ensures Valid()
      ensures commandHistory == old(commandHistory) && commandOutput == old(commandOutput)
      ensures |commandHistory| == 0 ==> historyIndex == old(historyIndex) && inputValue == old(inputValue)
      ensures |commandHistory| > 0 && up && old(historyIndex) < |commandHistory| - 1 ==>
        historyIndex == old(historyIndex) + 1 && inputValue == commandHistory[|commandHistory| - 1 - historyIndex]
      ensures |commandHistory| > 0 && up && old(historyIndex) == |commandHistory| - 1 ==>
        historyIndex == old(historyIndex) && inputValue == old(inputValue)
      ensures |commandHistory| > 0 && !up && old(historyIndex) > 1 ==>
        historyIndex == old(historyIndex) - 1 && inputValue == commandHistory[|commandHistory| - 1 - historyIndex]
      ensures |commandHistory| > 0 && !up && old(historyIndex) <= 1 ==>
        historyIndex == (if old(historyIndex) == 1 then 0 else -1) && inputValue == ""
    {
      if |commandHistory| == 0 {
        return;
      }
      if up {
        if historyIndex < |commandHistory| - 1 {
          var newIndex := historyIndex + 1;
          historyIndex := newIndex;
          inputValue := commandHistory[|commandHistory| - 1 - newIndex];
        }
      } else {
        if historyIndex > 0 {
          var newIndex := historyIndex - 1;
          historyIndex := newIndex;
          inputValue := if newIndex == 0 then "" else commandHistory[|commandHistory| - 1 - newIndex];
        } else {
          historyIndex := -1;
          inputValue := "";
        }
      }
    }

    method InputChange(text: string)
      modifies this
      ensures inputValue == text
      ensures commandHistory == old(commandHistory) && historyIndex == old(historyIndex)
      ensures commandOutput == old(commandOutput)
    {
      inputValue := text;
    }

    /** Enter: a blank box does nothing; otherwise the line runs and recall starts over. */
    method HandleSubmit(customs: seq<Command>, hasMessageHandler: bool, ctx: Context) returns (effect: Effect)
      requires Valid()
      modifies this
      ensures Valid()
      ensures Trim(old(inputValue)) == "" ==>
        commandHistory == old(commandHistory) && commandOutput == old(commandOutput)
        && historyIndex == old(historyIndex) && inputValue == old(inputValue) && effect == NoEffect
      ensures Trim(old(inputValue)) != "" ==>
        commandHistory == old(commandHistory) + [old(inputValue)] && historyIndex == -1 && inputValue == ""
        && effect == ExecuteReply(Available(customs, hasMessageHandler), ctx, old(inputValue)).effect
    {
      effect := NoEffect;
      if Trim(inputValue) != "" {
        effect := ExecuteCommand(customs, hasMessageHandler, ctx, inputValue);
        historyIndex := -1;
      }
    }
  }

  /** Running two lines records both in order and leaves recall off. */
  method RunTwo(s: CommandSystem, customs: seq<Command>, ctx: Context, first: string, second: string)
    requires s.Valid() && s.commandHistory == [] && s.historyIndex == -1
    modifies s
    ensures s.Valid() && s.commandHistory == [first, second] && s.historyIndex == -1
  {
    var e1 := s.ExecuteCommand(customs, true, ctx, first);
    var e2 := s.ExecuteCommand(customs, true, ctx, second);
  }

  /** Pressing up after running two lines recalls the second, then the first. */
  method UpRecallsNewestFirst(s: CommandSystem, customs: seq<Command>, ctx: Context, first: string, second: string)
    requires s.Valid() && s.commandHistory == [] && s.historyIndex == -1
    modifies s
    ensures s.historyIndex == 1 && s.inputValue == first
  {
    RunTwo(s, customs, ctx, first, second);
    s.NavigateHistory(true);
    assert s.inputValue == second;
    s.NavigateHistory(true);
  }
}
