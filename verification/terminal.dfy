/**
 * The terminal window (assets/components/TerminalWindow.tsx): the custom
 * commands it hands to the command interpreter, the `drag` command it adds
 * once mounted, and the message the `message` command changes.
 *
 * The custom command closures are created on the first render, so the ones
 * that read component state (`help` reads the command list, `history` reads
 * the history) see that first render's values for good: the initial eight
 * commands and an empty history.
 */
module Terminal {
  import opened Wrappers
  import opened Text
  import opened Seqs
  import opened Commands

  const WelcomeMessage := "Welcome To XenzOS"
  const NoHistoryText := "No command history"
  const GuestName := "Guest"
  const HelloText := "Hello there! Welcome to the terminal."
  const AboutText := "This is XenzOS - A modern desktop operating system in your browser."
  const LogoutText := "Logging out..."
  const ShutdownText := "Shutting down all applications..."
  const HelpNameWidth := 10
  const DragName := "drag"
  const DragDescription := "Toggle draggable window mode"
  const ExitDragText := "Exiting draggable mode"
  const EnterDragText := "Entering draggable mode. You can now drag this window around!"
  const NoDragText := "Unable to toggle draggable mode"

  /** The eight custom commands the terminal starts with, in order. */
  const InitialEntries: seq<Entry> := [
    Entry("hello", "Say hello to the user"),
    Entry("about", "Show information about this application"),
    Entry("help", "Display available commands"),
    Entry("date", "Display the current date and time"),
    Entry("history", "Show command history"),
    Entry("whoami", "Display current user"),
    Entry("logout", "Log out of the system"),
    Entry("shutdown", "Shut down all applications")
  ]

  /** The extra names the custom `help` appends to the custom commands before sorting. */
  const HelpExtraEntries: seq<Entry> := [
    Entry("clear", "Clear the terminal"),
    Entry("echo", "Print text to the terminal"),
    Entry("date", "Display the current date and time"),
    Entry("history", "Show command history"),
    Entry("whoami", "Display current user"),
    Entry("logout", "Log out of the system"),
    Entry("shutdown", "Shut down all applications")
  ]

  // -------------------------------------------------------------------------
  // The custom `help`: sorted by name, one padded line per entry

  predicate SortedByName(s: seq<Entry>) {
    forall i :: 0 < i < |s| ==> StrLe(s[i - 1].name, s[i].name)
  }

  /** Inserts `e` before the first entry whose name it does not come after. */
  function Insert(e: Entry, s: seq<Entry>): (r: seq<Entry>)
    requires SortedByName(s)
    ensures SortedByName(r)
    ensures multiset(r) == multiset(s) + multiset{e}
    ensures r[0] == e || (|s| > 0 && r[0] == s[0])
    decreases |s|
  {
    if |s| == 0 then [e]
    else if StrLe(e.name, s[0].name) then [e] + s
    else
      StrLeTotal(e.name, s[0].name);
      var t := Insert(e, s[1..]);
      assert s == [s[0]] + s[1..];
      [s[0]] + t
  }

  /** A stable insertion sort by ordinal name order: sorted, and the same entries. */
  function SortByName(s: seq<Entry>): (r: seq<Entry>)
    ensures SortedByName(r)
    ensures multiset(r) == multiset(s)
    decreases |s|
  {
    if |s| == 0 then []
    else
      assert s == [s[0]] + s[1..];
      Insert(s[0], SortByName(s[1..]))
  }

  /**
   * One line of the custom listing: two spaces, the name padded with spaces
   * to ten characters, " - " and the description, so that for names of at
   * most ten characters every description starts in column 15.
   */
  function HelpLine(e: Entry): (line: string)
    ensures StartsWith(line, "  " + PadEnd(e.name, HelpNameWidth, ' ') + " - ")
    ensures line[|"  " + PadEnd(e.name, HelpNameWidth, ' ') + " - "|..] == e.description
    ensures line[2..2 + |e.name|] == e.name
    ensures |e.name| <= HelpNameWidth ==>
      |line| == 15 + |e.description| && line[12..15] == " - " && line[15..] == e.description
      && forall i :: 2 + |e.name| <= i < 12 ==> line[i] == ' '
  {
    var prefix := "  " + PadEnd(e.name, HelpNameWidth, ' ') + " - ";
    var line := prefix + e.description;
    assert line[|prefix|..] == e.description;
    assert line[2..2 + |e.name|] == PadEnd(e.name, HelpNameWidth, ' ')[..|e.name|];
    line
  }

  /** The listing lines: one per entry, every entry present, in the order `SortByName` gives. */
  function HelpLines(entries: seq<Entry>): (lines: seq<string>)
    ensures |lines| == |entries|
    ensures forall i :: 0 <= i < |entries| ==> HelpLine(entries[i]) in lines
    ensures forall i :: 0 <= i < |lines| ==> lines[i] == HelpLine(SortByName(entries)[i])
  {
    var sorted := SortByName(entries);
    assert |sorted| == |multiset(sorted)| == |multiset(entries)| == |entries|;
    var lines := seq(|sorted|, i requires 0 <= i < |sorted| => HelpLine(sorted[i]));
    forall i | 0 <= i < |entries| ensures HelpLine(entries[i]) in lines {
      assert entries[i] in multiset(entries);
      assert entries[i] in sorted;
      var k :| 0 <= k < |sorted| && sorted[k] == entries[i];
      assert lines[k] == HelpLine(entries[i]);
    }
    lines
  }

  function TerminalHelpText(entries: seq<Entry>): string {
    HelpHeader + Join(HelpLines(entries), "\n")
  }

  /** What the custom `help` lists: the first render's custom commands and the extra names. */
  const CustomHelpListing := InitialEntries + HelpExtraEntries

  // -------------------------------------------------------------------------
  // `history`, `whoami`, `drag`

  function HistoryLine(i: nat, cmd: string): string {
    NatToString(i + 1) + ": " + cmd
  }

  function HistoryLines(history: seq<string>): (lines: seq<string>)
    ensures |lines| == |history|
    ensures forall i :: 0 <= i < |history| ==> lines[i] == HistoryLine(i, history[i])
  {
    seq(|history|, i requires 0 <= i < |history| => HistoryLine(i, history[i]))
  }

  /** `history`: a fixed notice for an empty history, else numbered lines from 1. */
  function HistoryText(history: seq<string>): (r: string)
    ensures r == NoHistoryText <==> |history| == 0
    ensures |history| > 0 ==> StartsWith(r, "1: " + history[0])
  {
    if |history| == 0 then NoHistoryText
    else
      var lines := HistoryLines(history);
      JoinStartsWithHead(lines, "\n");
      assert lines[0] == "1: " + history[0];
      assert Join(lines, "\n")[0] == '1';
      Join(lines, "\n")
  }

  /** The history listing splits back on line breaks into exactly its numbered lines. */
  lemma HistoryTextLines(history: seq<string>)
    requires |history| > 0
    requires forall i :: 0 <= i < |history| ==> '\n' !in history[i]
    ensures Split(HistoryText(history), '\n') == HistoryLines(history)
  {
    var lines := HistoryLines(history);
    forall k | 0 <= k < |lines| ensures '\n' !in lines[k] {
      var digits := NatToString(k + 1);
      assert AllDigits(digits);
      assert lines[k] == digits + ": " + history[k];
    }
    SplitJoin(lines, '\n');
  }

  /** `whoami`: the stored user name, or "Guest" when it is missing or empty. */
  function WhoamiText(username: Option<string>): (r: string)
    ensures Truthy(username) ==> r == username.value
    ensures !Truthy(username) ==> r == GuestName
  {
    if Truthy(username) then username.value else GuestName
  }

  /**
   * `drag`: leaves draggable mode when the window is draggable and can be
   * closed, otherwise enters it when it can be opened, otherwise refuses.
   */
  function DragReply(isDraggable: bool, hasOpen: bool, hasClose: bool): (r: Reply)
    ensures r.effect == CloseDraggable <==> isDraggable && hasClose
    ensures r.effect == OpenDraggable <==> !(isDraggable && hasClose) && hasOpen
    ensures r.effect == NoEffect <==> !(isDraggable && hasClose) && !hasOpen
  {
    if isDraggable && hasClose then Reply(ExitDragText, CloseDraggable)
    else if hasOpen then Reply(EnterDragText, OpenDraggable)
    else Reply(NoDragText, NoEffect)
  }

  function DragCommand(isDraggable: bool, hasOpen: bool, hasClose: bool): Command {
    Command(DragName, DragDescription,
      (ctx: Context, args: seq<string>) => DragReply(isDraggable, hasOpen, hasClose))
  }

  /**
   * The initial custom commands, with the closures of the first render;
   * `helpListing` is what the custom `help` lists (`CustomHelpListing`).
   */
  function InitialCustoms(helpListing: seq<Entry>): (r: seq<Command>)
    ensures EntriesOf(r) == InitialEntries
  {
    [
      Command("hello", "Say hello to the user",
        (ctx: Context, args: seq<string>) => Reply(HelloText, NoEffect)),
      Command("about", "Show information about this application",
        (ctx: Context, args: seq<string>) =>
          Reply(AboutText, NoEffect)),
      Command("help", "Display available commands",
        (ctx: Context, args: seq<string>) => Reply(TerminalHelpText(helpListing), NoEffect)),
      Command("date", "Display the current date and time",
        (ctx: Context, args: seq<string>) => Reply(ctx.localeDateText, NoEffect)),
      Command("history", "Show command history",
        (ctx: Context, args: seq<string>) => Reply(HistoryText([]), NoEffect)),
      Command("whoami", "Display current user",
        (ctx: Context, args: seq<string>) => Reply(WhoamiText(ctx.username), NoEffect)),
      Command("logout", "Log out of the system",
        (ctx: Context, args: seq<string>) => Reply(LogoutText, Logout)),
      Command("shutdown", "Shut down all applications",
        (ctx: Context, args: seq<string>) => Reply(ShutdownText, Shutdown))
    ]
  }

  predicate IsDrag(c: Command) {
    c.name == DragName
  }

  /** The mount effect's update: the drag command is appended unless a command named "drag" exists. */
  function WithDrag(customs: seq<Command>, drag: Command): (r: seq<Command>)
    requires drag.name == DragName
    ensures Any(customs, IsDrag) ==> r == customs
    ensures !Any(customs, IsDrag) ==> r == customs + [drag]
    ensures Any(r, IsDrag)
  {
    if Any(customs, IsDrag) then customs
    else
      var r := customs + [drag];
      assert IsDrag(r[|r| - 1]);
      r
  }

  /** Running the mount effect again adds nothing. */
  lemma WithDragIdempotent(customs: seq<Command>, drag: Command, other: Command)
    requires drag.name == DragName && other.name == DragName
    ensures WithDrag(WithDrag(customs, drag), other) == WithDrag(customs, drag)
  {
  }

  // -------------------------------------------------------------------------
  // What the terminal answers

  /** In the terminal the built-in `help` shadows the custom one: the listing is unsorted, built-ins first. */
  lemma HelpIsTheBuiltIn(customs: seq<Command>, ctx: Context, text: string)
    requires CommandName(text) == "help"
    ensures ExecuteReply(Available(customs, true), ctx, text) == Reply(DefaultHelpText(customs), NoEffect)
  {
    DefaultsShadowCustoms(customs, true, 0);
  }

  /** The names the terminal looks a line up in, in lookup order, before the drag command. */
  const TerminalLookupNames: seq<string> := [
    "help", "clear", "theme", "message", "echo", "date",
    "hello", "about", "help", "date", "history", "whoami", "logout", "shutdown"
  ]

  lemma TerminalLookup(listing: seq<Entry>, drag: Command)
    requires drag.name == DragName
    ensures var all := Available(WithDrag(InitialCustoms(listing), drag), true);
      && |all| == 15 && all[14] == drag && all[6..14] == InitialCustoms(listing)
      && forall j :: 0 <= j < 14 ==> all[j].name == TerminalLookupNames[j]
  {
    var initial := InitialCustoms(listing);
    InitialNames(listing);
    var customs := WithDrag(initial, drag);
    assert customs == initial + [drag];
    var d := DefaultCommands(customs, true);
    DefaultNames(customs);
    var all := Available(customs, true);
    assert all == d + initial + [drag];
    forall j | 0 <= j < 14
      ensures all[j].name == TerminalLookupNames[j]
    {
      if j < 6 {
        assert all[j] == d[j];
      } else {
        assert all[j] == initial[j - 6];
      }
    }
  }

  /** The initial custom commands' names follow the built-ins in the lookup order, and none is `drag`. */
  lemma InitialEntryNames()
    ensures forall j :: 0 <= j < 8 ==> InitialEntries[j].name == TerminalLookupNames[6 + j]
    ensures forall j :: 0 <= j < 8 ==> InitialEntries[j].name != DragName
  {
    forall j | 0 <= j < 8
      ensures InitialEntries[j].name != DragName
    {
      assert InitialEntries[j].name[0] != DragName[0] || InitialEntries[j].name[1] != DragName[1];
    }
  }

  lemma InitialNames(listing: seq<Entry>)
    ensures |InitialCustoms(listing)| == 8 && !Any(InitialCustoms(listing), IsDrag)
    ensures forall j :: 0 <= j < 8 ==> InitialCustoms(listing)[j].name == TerminalLookupNames[6 + j]
  {
    var initial := InitialCustoms(listing);
    InitialEntryNames();
    forall j | 0 <= j < 8
      ensures initial[j].name == InitialEntries[j].name
    {
      assert EntriesOf(initial)[j] == InitialEntries[j];
    }
  }

  lemma DefaultNames(customs: seq<Command>)
    ensures |DefaultCommands(customs, true)| == 6
    ensures forall j :: 0 <= j < 6 ==> DefaultCommands(customs, true)[j].name == TerminalLookupNames[j]
  {
    var d := DefaultCommands(customs, true);
    assert EntriesOf(d) == DefaultEntries;
    assert forall j :: 0 <= j < 6 ==> d[j].name == DefaultEntries[j].name;
  }

  /** `history` first occurs at index 10 of the lookup order, `whoami` at 11; `drag` is not among the first 14. */
  lemma LookupNamesFirstAt()
    ensures forall j :: 0 <= j < 10 ==> TerminalLookupNames[j] != "history"
    ensures forall j :: 0 <= j < 11 ==> TerminalLookupNames[j] != "whoami"
    ensures forall j :: 0 <= j < 14 ==> TerminalLookupNames[j] != DragName
  {
    forall j | 0 <= j < 14
      ensures TerminalLookupNames[j] != "history" || j == 10
      ensures TerminalLookupNames[j] != "whoami" || j == 11
      ensures TerminalLookupNames[j] != DragName
    {
      assert TerminalLookupNames[j][0] != "drag"[0] || TerminalLookupNames[j][1] != "drag"[1];
    }
  }

  /** The terminal's `history` always answers that there is no history. */
  lemma HistoryAlwaysEmpty(listing: seq<Entry>, ctx: Context, text: string, drag: Command)
    requires CommandName(text) == "history" && drag.name == DragName
    ensures ExecuteReply(Available(WithDrag(InitialCustoms(listing), drag), true), ctx, text) == Reply(NoHistoryText, NoEffect)
  {
    TerminalLookup(listing, drag);
    LookupNamesFirstAt();
    var all := Available(WithDrag(InitialCustoms(listing), drag), true);
    assert all[10] == InitialCustoms(listing)[4];
    ExecuteRunsFirstMatch(all, ctx, text, 10);
  }

  /** `whoami` in the terminal names the stored user, or the guest. */
  lemma WhoamiAnswers(listing: seq<Entry>, ctx: Context, text: string, drag: Command)
    requires CommandName(text) == "whoami" && drag.name == DragName
    ensures ExecuteReply(Available(WithDrag(InitialCustoms(listing), drag), true), ctx, text).text == WhoamiText(ctx.username)
  {
    TerminalLookup(listing, drag);
    LookupNamesFirstAt();
    var all := Available(WithDrag(InitialCustoms(listing), drag), true);
    assert all[11] == InitialCustoms(listing)[5];
    ExecuteRunsFirstMatch(all, ctx, text, 11);
  }

  /** `drag` in the terminal runs the drag command added at mount. */
  lemma DragAnswers(listing: seq<Entry>, ctx: Context, text: string, isDraggable: bool, hasOpen: bool, hasClose: bool)
    requires CommandName(text) == DragName
    ensures ExecuteReply(Available(WithDrag(InitialCustoms(listing), DragCommand(isDraggable, hasOpen, hasClose)), true), ctx, text)
            == DragReply(isDraggable, hasOpen, hasClose)
  {
    var drag := DragCommand(isDraggable, hasOpen, hasClose);
    TerminalLookup(listing, drag);
    LookupNamesFirstAt();
    var all := Available(WithDrag(InitialCustoms(listing), drag), true);
    ExecuteRunsFirstMatch(all, ctx, text, 14);
  }

  // -------------------------------------------------------------------------
  // The component

  class TerminalWindow {
    var message: string
    var history: seq<string>
    var customCommands: seq<Command>
    const isDraggable: bool
    const hasOpenDraggable: bool
    const hasCloseDraggable: bool

    constructor (helpListing: seq<Entry>, isDraggable: bool, hasOpenDraggable: bool, hasCloseDraggable: bool)
      ensures message == WelcomeMessage && history == [] && customCommands == InitialCustoms(helpListing)
      ensures this.isDraggable == isDraggable
      ensures this.hasOpenDraggable == hasOpenDraggable && this.hasCloseDraggable == hasCloseDraggable
    {
      message := WelcomeMessage;
      history := [];
      customCommands := InitialCustoms(helpListing);
      this.isDraggable := isDraggable;
      this.hasOpenDraggable := hasOpenDraggable;
      this.hasCloseDraggable := hasCloseDraggable;
    }

    /** The mount effect: add the drag command unless one is already there. */
    method AddDragCommand()
      modifies this
      ensures customCommands == WithDrag(old(customCommands), DragCommand(isDraggable, hasOpenDraggable, hasCloseDraggable))
      ensures message == old(message) && history == old(history)
    {
      var dragCommand := DragCommand(isDraggable, hasOpenDraggable, hasCloseDraggable);
      if !Any(customCommands, IsDrag) {
        customCommands := customCommands + [dragCommand];
      }
    }

    /** The history recorder (defined by the component, though nothing calls it). */
    method RecordHistory(command: string)
      modifies this
      ensures history == old(history) + [command]
      ensures message == old(message) && customCommands == old(customCommands)
    {
      history := history + [command];
    }

    /** The `message` command's handler. */
    method HandleMessageChange(newMessage: string)
      modifies this
      ensures message == newMessage
      ensures history == old(history) && customCommands == old(customCommands)
    {
      message := newMessage;
    }
  }
}
