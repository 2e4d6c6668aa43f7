# XenzOS desktop core in Dafny

XenzOS is a desktop that runs in the browser, written as React components. This project models the component logic underneath the rendering, and proves what that logic promises:

- window geometry: dragging, eight-way resizing with a size floor, fullscreen, and moving back into the viewport;
- the desktop icon layer and its grid;
- the browser's back/forward history;
- the terminal's command layer and its custom commands;
- the file manager's path and file list;
- the calendar, the notes, and the shell that opens, closes and remembers applications;
- the YouTube Shorts viewer, the calculator's display, the login screen, and the clock and timestamp texts;
- the weather icon classifier.

The model follows the source's own form:

- A component whose handlers update React state becomes a `class`. Its fields are the state variables and its methods are the handlers. Every method states its whole new state in terms of the old one, usually through a pure specification function.
- Pure helpers become functions, with lemmas about what they promise.
- Browser inputs are parameters. These are:
  - pointer coordinates and the viewport size;
  - answers to `confirm` and `prompt`;
  - ids made from the clock;
  - the fields of the current date;
  - what local storage and cookies hold.
- Writes to storage are returned as values.

There is one module per source file. They share the modules `Wrappers` (`Option` and JavaScript truthiness of optional strings), `Text` (the JavaScript string operations the components use: `split`, `join`, `trim`, `padStart`, `padEnd`, `includes`, ASCII lower case, decimal numbers) and `Seqs` (`filter` and `find`). `Clock` holds the 12-hour time text. The taskbar and the login screen build it the same way, so it is defined once.

## Model

| member | source | states |
|---|---|---|
| Window.AxisResize | assets/components/DraggableWindow.tsx:95-113 | an axis the handle names ends at or above its floor; an axis it does not name keeps its start position and length |
| Window.Resized | assets/components/DraggableWindow.tsx:89-118 | every dimension the resize handle names ends at or above the minimum, however far the pointer moves; an axis the handle does not name keeps its start width or height and position |
| Window.EastResize | assets/components/DraggableWindow.tsx:95-98 | east and the east half of a corner: width is `max(minWidth, startWidth + dx)` and x stays |
| Window.SouthResize | assets/components/DraggableWindow.tsx:99-102 | south: height is `max(minHeight, startHeight + dy)` and y stays |
| Window.WestResize | assets/components/DraggableWindow.tsx:103-108 | west: width is `max(minWidth, startWidth - dx)`; x stays only if the width came out unchanged, otherwise it moves by the full dx |
| Window.NorthResize | assets/components/DraggableWindow.tsx:109-114 | north mirrors west on height and y |
| Window.WestKeepsRightEdge | assets/components/DraggableWindow.tsx:103-108 | while the floor is not hit, a west resize keeps the right edge in place |
| Window.NorthKeepsBottomEdge | assets/components/DraggableWindow.tsx:109-114 | while the floor is not hit, a north resize keeps the bottom edge in place |
| Window.WestClampedStillMoves | assets/components/DraggableWindow.tsx:106-107 | when the west width clamps to the floor, x still moves by the full delta, so the right edge drifts right by the clamped-off amount |
| Window.WestClampExample | assets/components/DraggableWindow.tsx:103-108 | a window at x=100, 400 wide with floor 300, dragged 150 to the right on its west handle ends at x=250 and 300 wide |
| Window.AxesIndependent | assets/components/DraggableWindow.tsx:95-114 | corner handles apply both axis rules independently: width and x ignore vertical travel, height and y ignore horizontal travel |
| Window.ClampAxis | assets/components/DraggableWindow.tsx:149-176 | one axis of the viewport re-clamp: an inside position is kept, a negative one goes to 0, an overflowing one is pulled back so the far edge meets the viewport, and a window that fits ends inside |
| Window.Reclamped | assets/components/DraggableWindow.tsx:146-182 | after a viewport resize a window that fits lies wholly inside, one already inside does not move, and a negative coordinate goes to 0 |
| Window.CursorFor | assets/components/DraggableWindow.tsx:211-219 | a handle always shows a resize cursor; off the handles the cursor is the grabbing hand exactly while dragging, else the default |
| Window.CursorSymmetric | assets/components/DraggableWindow.tsx:211-219 | opposite handles show the same resize cursor, and a handle never shows the drag or default cursor |
| Window.DraggableWindow.constructor | assets/components/DraggableWindow.tsx:20-37 | the window starts at the given position and size with no gesture in progress, not fullscreen, and with the saved geometry equal to the initial one |
| Window.DraggableWindow.MouseDown | assets/components/DraggableWindow.tsx:41-55 | a press on the title bar starts a drag and records the pointer's offset from the corner; a press anywhere else (a resize handle included) changes nothing |
| Window.DraggableWindow.ResizeStart | assets/components/DraggableWindow.tsx:58-72 | a resize starts with the handle's direction and snapshots of the pointer, size and position; the geometry is not changed |
| Window.DraggableWindow.MouseMove | assets/components/DraggableWindow.tsx:75-120 | while dragging, the position is pointer minus offset and the size is kept; while resizing, the geometry is `Resized` from the start snapshot; otherwise nothing moves |
| Window.DraggableWindow.MouseUp | assets/components/DraggableWindow.tsx:123-127 | every gesture ends: not dragging, not resizing, no direction; the geometry is kept |
| Window.DraggableWindow.ViewportResize | assets/components/DraggableWindow.tsx:146-182 | the position is re-clamped into the viewport and the size never changes |
| Window.DraggableWindow.ToggleFullscreen | assets/components/DraggableWindow.tsx:187-208 | entering saves position and size and fills the viewport minus the 50-pixel dock; leaving restores exactly the saved geometry |
| Window.ToggleTwiceRestores | assets/components/DraggableWindow.tsx:187-208 | toggling fullscreen twice returns the window to its earlier position and size |
| Window.DragFollowsPointer | assets/components/DraggableWindow.tsx:41-81 | a drag gesture moves the window by exactly the pointer's travel and keeps its size |
| Window.ResizeRespectsFloor | assets/components/DraggableWindow.tsx:58-120 | a resize gesture leaves each dimension its handle names at or above the minimum |
| DesktopIcons.Slot | assets/components/DesktopFiles.tsx:70-78 | the n-th pinned icon lands on the 100-pixel grid from (20, 40), in one of its five columns, and its row times five plus its column gives back n |
| DesktopIcons.SlotsDistinct | assets/components/DesktopFiles.tsx:70-78 | two different slot numbers never share a grid cell |
| DesktopIcons.SixthSlot | assets/components/DesktopFiles.tsx:71-78 | the sixth icon starts the second row, at (20, 140) |
| DesktopIcons.MovedTo | assets/components/DesktopFiles.tsx:129-135 | a drag step rewrites only the entries with the dragged id; order, length, ids and every other entry are kept |
| DesktopIcons.OnGridApart | assets/components/DesktopFiles.tsx:70-78 | icons laid out by the grid never overlap |
| DesktopIcons.Persisted | assets/components/DesktopFiles.tsx:53-60 | the save effect writes each list exactly when it is non-empty, and writes it unchanged |
| DesktopIcons.PositionOf | assets/components/DesktopFiles.tsx:111 | a found position is in the list and carries the id; none is found exactly when no position carries it |
| DesktopIcons.Added | assets/components/DesktopFiles.tsx:63-82 | pinning a file already pinned changes nothing; otherwise the file is appended to the pinned list and its position, the grid slot numbered by the old position count, to the positions; either way it is pinned afterwards |
| DesktopIcons.AddedKeepsPaired | assets/components/DesktopFiles.tsx:63-82 | pinning keeps one position per pinned file, in the same order, with no id twice |
| DesktopIcons.AddedKeepsOnGrid | assets/components/DesktopFiles.tsx:70-78 | pinning keeps a grid layout a grid layout: the new position takes the slot numbered by the count before the add |
| DesktopIcons.SeededAsWritten | assets/components/DesktopFiles.tsx:154-168 | the seeding effect as written does nothing unless files are known and nothing is pinned |
| DesktopIcons.SeedAsWrittenDropsWelcome | assets/components/DesktopFiles.tsx:155-166 | as written, both pin requests read the same empty snapshot, so the image replaces the welcome file |
| DesktopIcons.Seeded | assets/components/DesktopFiles.tsx:154-168 | the intended seeding does nothing unless files are known and nothing is pinned |
| DesktopIcons.SeedPinsBoth | assets/components/DesktopFiles.tsx:155-166 | the intended seeding pins the welcome file and the first image, keeps the pairing and the grid, and pins nothing when neither exists |
| DesktopIcons.DefaultFilesSeed | assets/components/DesktopFiles.tsx:155-166 | on the file manager's default files the intended seeding pins the welcome document and then the sample image, while the seeding as written pins only the image |
| DesktopIcons.DesktopFiles.constructor | assets/components/DesktopFiles.tsx:12-16 | the layer starts empty with no drag |
| DesktopIcons.DesktopFiles.Load | assets/components/DesktopFiles.tsx:20-50 | each stored list that is present replaces the one in memory; the others are kept |
| DesktopIcons.DesktopFiles.AddFile | assets/components/DesktopFiles.tsx:63-82 | the new layer is `Added` of the old one, so a new file gets the next grid slot; pairing and the grid layout are preserved |
| DesktopIcons.DesktopFiles.MouseDown | assets/components/DesktopFiles.tsx:103-123 | the pressed id becomes the dragged one; if it has a stored position, the offset becomes pointer minus that position, otherwise the offset is kept |
| DesktopIcons.DesktopFiles.MouseMove | assets/components/DesktopFiles.tsx:126-137 | while an icon is dragged only its entry moves, to pointer minus offset; with no drag nothing changes |
| DesktopIcons.DesktopFiles.MouseUp | assets/components/DesktopFiles.tsx:140-144 | the drag ends and nothing else changes |
| DesktopIcons.DesktopFiles.ListenerMouseMove | assets/components/DesktopFiles.tsx:126-137 | the registered listener moves the entry of the dragged id it saw, to pointer minus the offset it saw, and only when that id is truthy |
| DesktopIcons.DragAsWritten | assets/components/DesktopFiles.tsx:103-144 | a drag from an idle layer, with the listener of the render before the press, leaves every icon where it was |
| DesktopIcons.DragMovesIcon | assets/components/DesktopFiles.tsx:103-144 | a drag whose listener reads the current state moves the pressed icon by the pointer's travel, moves nothing else, and keeps the layer consistent |
| DesktopIcons.DesktopFiles.Seed | assets/components/DesktopFiles.tsx:154-168 | the layer becomes `Seeded` of the old one, keeping the pairing and the grid |
| Browser.NormalizeUrl | assets/components/apps/BrowserApp.tsx:37-41 | the result always has an http or https scheme; an address that has one (in any case) is kept, any other gets "https://" in front |
| Browser.NormalizeIdempotent | assets/components/apps/BrowserApp.tsx:37-41 | normalising twice is normalising once |
| Browser.UpperCaseSchemeKept | assets/components/apps/BrowserApp.tsx:39 | the scheme test ignores case, so "HTTP://a" is kept as typed |
| Browser.BareHostPrefixed | assets/components/apps/BrowserApp.tsx:39-40 | a bare host name gets the secure scheme |
| Browser.BrowserApp.constructor | assets/components/apps/BrowserApp.tsx:16-21 | the browser starts on the default page with an empty history and index -1 |
| Browser.BrowserApp.Init | assets/components/apps/BrowserApp.tsx:94-99 | an empty history becomes the default page at index 0; a non-empty one is kept |
| Browser.BrowserApp.InputChange | assets/components/apps/BrowserApp.tsx:65-67 | only the address bar text changes |
| Browser.BrowserApp.NavigateTo | assets/components/apps/BrowserApp.tsx:33-58 | the history becomes the entries up to the current one plus the normalised address; the index moves to that last entry; page and address bar show it; loading starts and the error clears |
| Browser.BrowserApp.Submit | assets/components/apps/BrowserApp.tsx:60-63 | submitting navigates to the address bar's text |
| Browser.BrowserApp.GoBack | assets/components/apps/BrowserApp.tsx:69-76 | with an earlier entry the index goes back one and the page shows that entry; otherwise nothing changes; the history is never changed |
| Browser.BrowserApp.GoForward | assets/components/apps/BrowserApp.tsx:78-85 | with a later entry the index goes forward one and the page shows that entry; otherwise nothing changes; the history is never changed |
| Browser.BrowserApp.LoadingDone | assets/components/apps/BrowserApp.tsx:57 | the loading timer only ends loading |
| Browser.BrowserApp.IframeError | assets/components/apps/BrowserApp.tsx:88-91 | a frame failure shows the fixed message and ends loading |
| Browser.BackThenForward | assets/components/apps/BrowserApp.tsx:69-85 | back followed by forward restores the index and the page, and keeps the history |
| Browser.NavigateDropsForward | assets/components/apps/BrowserApp.tsx:44-50 | going back and then navigating discards the entries that were ahead |
| Commands.EntriesOf | assets/components/CommandSystem.tsx:32-35 | one name and description per command, in order |
| Commands.ListingLines | assets/components/CommandSystem.tsx:33-35 | one "name: description" line per entry, in order |
| Commands.ThemeReply | assets/components/CommandSystem.tsx:47-60 | with no argument the current theme and the usage text; "dark" or "light" in any case switches to that theme in lower case and says so; any other word is named as invalid with the options, and nothing is switched |
| Commands.ThemeIgnoresCase | assets/components/CommandSystem.tsx:50-51 | only the first argument counts, and its letter case plays no part |
| Commands.MessageReply | assets/components/CommandSystem.tsx:62-77 | no arguments give the usage text; with arguments and no handler the refusal; with a handler the arguments joined by single spaces become the message |
| Commands.DefaultCommands | assets/components/CommandSystem.tsx:27-92 | the six built-ins `help`, `clear`, `theme`, `message`, `echo`, `date` with their descriptions, in that order |
| Commands.Available | assets/components/CommandSystem.tsx:95 | the lookup list is the six built-ins followed by the custom commands unchanged |
| Commands.Tokenize | assets/components/CommandSystem.tsx:117-118 | the name is the trimmed line's first token in lower case and the arguments are the remaining tokens in order: no token holds a space, and the first token and the arguments joined by single spaces give back the trimmed line |
| Commands.ExecuteReply | assets/components/CommandSystem.tsx:121-130 | a name no command has answers "" when empty and the not-found text otherwise |
| Commands.ExecuteRunsFirstMatch | assets/components/CommandSystem.tsx:116-124 | when the k-th command is the first carrying the line's lower-cased name, the reply is that command run on the rest of the line's space-separated pieces |
| Commands.DefaultsShadowCustoms | assets/components/CommandSystem.tsx:94-121 | lookup takes the first command with the name and built-ins come first, so a custom command named like a built-in is never chosen |
| Commands.ClearClears | assets/components/CommandSystem.tsx:38-45 | a line named `clear` always runs the built-in, which answers "" and empties the output |
| Commands.NameIgnoresCase | assets/components/CommandSystem.tsx:118 | two lines with the same lower-cased name and arguments get the same reply |
| Commands.EchoReturnsRest | assets/components/CommandSystem.tsx:78-84 | "echo " followed by any text that does not end in white space answers that text unchanged, spaces included |
| Commands.TokenizeEcho | assets/components/CommandSystem.tsx:117-118 | "echo " followed by such text splits into the name `echo` and the text's space-separated pieces |
| Commands.BlankLineAnswersNothing | assets/components/CommandSystem.tsx:117-127 | a line of only white space answers "" with no effect |
| Commands.CommandSystem.constructor | assets/components/CommandSystem.tsx:18-21 | no history, recall index -1, an empty input and an empty output |
| Commands.CommandSystem.ExecuteCommand | assets/components/CommandSystem.tsx:112-139 | the line joins the history; the chosen command's reply is shown under it unless the name is `clear`, which leaves the output empty; the input is cleared |
| Commands.CommandSystem.NavigateHistory | assets/components/CommandSystem.tsx:142-163 | with an empty history nothing changes; up recalls one older line until the oldest; down recalls one newer line, and down onto the newest or below shows an empty input; the index stays within -1 and the history's last index |
| Commands.CommandSystem.InputChange | assets/components/CommandSystem.tsx:209 | only the input text changes |
| Commands.CommandSystem.HandleSubmit | assets/components/CommandSystem.tsx:177-183 | a blank input changes nothing; otherwise the line runs and recall starts over at -1 |
| Commands.RunTwo | assets/components/CommandSystem.tsx:112-114 | running two lines from an empty history records both, in order, and leaves recall off |
| Commands.UpRecallsNewestFirst | assets/components/CommandSystem.tsx:142-151 | after two lines, pressing up twice recalls the second line and then the first |
| Terminal.Insert | assets/components/TerminalWindow.tsx:48-49 | inserting into a name-sorted list keeps it sorted and adds exactly the one entry |
| Terminal.SortByName | assets/components/TerminalWindow.tsx:48-49 | the sort's result is ordered by name and is a permutation of its input |
| Terminal.HelpLine | assets/components/TerminalWindow.tsx:50 | a line is two spaces, the name padded to 10 characters, " - " and the description; for a name of at most 10 characters the description starts in column 15 |
| Terminal.HelpLines | assets/components/TerminalWindow.tsx:37-51 | one line per listed command, every command present, in name order |
| Terminal.HistoryLines | assets/components/TerminalWindow.tsx:64 | line i reads "i+1: command" |
| Terminal.HistoryText | assets/components/TerminalWindow.tsx:62-64 | the fixed notice exactly when the history is empty; otherwise the text starts with "1: " and the first command |
| Terminal.HistoryTextLines | assets/components/TerminalWindow.tsx:62-65 | a non-empty history listing splits back on line breaks into exactly its numbered lines |
| Terminal.WhoamiText | assets/components/TerminalWindow.tsx:70-73 | the stored user name when it is present and non-empty, else "Guest" |
| Terminal.DragReply | assets/components/TerminalWindow.tsx:103-112 | the drag command closes exactly when draggable with a close handler; otherwise it opens exactly when an open handler exists; otherwise it does nothing |
| Terminal.InitialCustoms | assets/components/TerminalWindow.tsx:22-95 | the eight custom commands `hello`, `about`, `help`, `date`, `history`, `whoami`, `logout`, `shutdown` with their descriptions |
| Terminal.WithDrag | assets/components/TerminalWindow.tsx:116-122 | the drag command is appended exactly when no command is named `drag`; afterwards one is |
| Terminal.WithDragIdempotent | assets/components/TerminalWindow.tsx:116-122 | running the mount effect again adds nothing |
| Terminal.HelpIsTheBuiltIn | assets/components/TerminalWindow.tsx:33-53 | in the terminal, `help` runs the built-in unsorted listing, never the custom sorted one |
| Terminal.TerminalLookup | assets/components/TerminalWindow.tsx:22-122 | the terminal looks a line up in the six built-ins, then the eight custom commands, then the drag command |
| Terminal.HistoryAlwaysEmpty | assets/components/TerminalWindow.tsx:59-66 | the terminal's `history` always answers "No command history", since nothing records history |
| Terminal.WhoamiAnswers | assets/components/TerminalWindow.tsx:67-74 | `whoami` in the terminal names the stored user, or the guest |
| Terminal.DragAnswers | assets/components/TerminalWindow.tsx:98-123 | `drag` in the terminal runs the drag command added at mount |
| Terminal.TerminalWindow.constructor | assets/components/TerminalWindow.tsx:18-95 | the welcome message, an empty history and the eight custom commands |
| Terminal.TerminalWindow.AddDragCommand | assets/components/TerminalWindow.tsx:98-123 | the custom commands become `WithDrag` of the old ones |
| Terminal.TerminalWindow.RecordHistory | assets/components/TerminalWindow.tsx:126-128 | the command is appended to the history |
| Terminal.TerminalWindow.HandleMessageChange | assets/components/TerminalWindow.tsx:131-133 | only the message changes |
| FileManager.DefaultFiles | assets/components/apps/FileManagerApp.tsx:68-91 | six records dated today with distinct ids and names: four folders, then the welcome document with its text and the sample image with its preview, each typed as an upload of that name would be |
| FileManager.TypeFromName | assets/components/apps/FileManagerApp.tsx:141-144 | the first matching extension rule wins, case-sensitive: .jpg or .png is an image, then .mp4 a video, .mp3 audio, .txt or .doc a document, anything else other; never a folder |
| FileManager.UploadedFile | assets/components/apps/FileManagerApp.tsx:146-153 | the uploaded record has the given id, name and date and the type its name gives; only a document gets text and only an image gets a preview |
| FileManager.VisibleFiles | assets/components/apps/FileManagerApp.tsx:95-107 | an empty query lists every file; any other lists only files whose lower-cased name contains the lower-cased query, and every such file |
| FileManager.VisibleFilesStep | assets/components/apps/FileManagerApp.tsx:95-107 | the search result is built file by file in list order: one more file is listed exactly when the query is empty or its name matches |
| FileManager.SearchIgnoresCase | assets/components/apps/FileManagerApp.tsx:100-103 | a query and its lower-case form list the same files |
| FileManager.BackPath | assets/components/apps/FileManagerApp.tsx:125-127 | the back path always starts and ends with '/' |
| FileManager.SplitSegments | assets/components/apps/FileManagerApp.tsx:125 | the path of a chain of folder names splits on '/' into those names and one trailing empty part |
| FileManager.PathParts | assets/components/apps/FileManagerApp.tsx:125 | the non-empty parts of a path built from folder names are exactly those names, in order |
| FileManager.BackFromFolder | assets/components/apps/FileManagerApp.tsx:121-128 | back from a folder two or more levels deep returns to its parent's path; back from a first-level folder gives "//", not "/" |
| FileManager.BackFromDoubleSlash | assets/components/apps/FileManagerApp.tsx:121-128 | back from "//" stays at "//" |
| FileManager.WithoutId | assets/components/apps/FileManagerApp.tsx:176 | no record with the deleted id is left; every other record is kept, in order; a list without that id is unchanged |
| FileManager.WithoutIdStep | assets/components/apps/FileManagerApp.tsx:176 | deleting keeps the other records in list order: one more record is kept exactly when its id differs |
| FileManager.FileManagerApp.constructor | assets/components/apps/FileManagerApp.tsx:38-43 | the browser starts at the root with nothing selected, no files and no query |
| FileManager.FileManagerApp.Load | assets/components/apps/FileManagerApp.tsx:46-58 | stored files are loaded; a missing or unreadable entry gives the six default files, which are written back |
| FileManager.FileManagerApp.Persist | assets/components/apps/FileManagerApp.tsx:61-65 | what is written is `WrittenList` of the current list: nothing for an empty list |
| FileManager.FileManagerApp.FileClick | assets/components/apps/FileManagerApp.tsx:110-118 | a folder opens, its name and '/' appended to the path; any other file is selected and the path kept |
| FileManager.FileManagerApp.Back | assets/components/apps/FileManagerApp.tsx:121-128 | nothing happens at the root; anywhere else the path becomes `BackPath` of the old path |
| FileManager.FileManagerApp.Home | assets/components/apps/FileManagerApp.tsx:131-133 | the path returns to the root and nothing else changes |
| FileManager.FileManagerApp.Upload | assets/components/apps/FileManagerApp.tsx:136-156 | a cancelled or empty name changes nothing; otherwise exactly the uploaded record is appended |
| FileManager.FileManagerApp.NewFolder | assets/components/apps/FileManagerApp.tsx:159-171 | a cancelled or empty name changes nothing; otherwise exactly one folder with that name is appended |
| FileManager.FileManagerApp.DeleteFile | assets/components/apps/FileManagerApp.tsx:174-181 | an unconfirmed delete changes nothing; a confirmed one removes every record with the id and clears the selection exactly when it had that id |
| Calendar.MonthAfter | assets/components/apps/CalendarApp.tsx:88-95 | the next month is again 0..11 and is exactly one month later: December rolls over to January of the next year |
| Calendar.MonthBefore | assets/components/apps/CalendarApp.tsx:78-85 | the previous month is again 0..11 and is exactly one month earlier: January rolls back to December of the previous year |
| Calendar.MonthStepsInverse | assets/components/apps/CalendarApp.tsx:78-95 | next then previous, and previous then next, return to the same month and year |
| Calendar.MonthFromIndex | assets/components/apps/CalendarApp.tsx:78-95 | a month and year are determined by the running month count |
| Calendar.ParseDateParts | assets/components/apps/CalendarApp.tsx:106-109 | a key is split on '-': the year is the first part's number, the month the second part's number minus one, the day the third part's number; a missing part gives no number |
| Calendar.ThreePartsSplit | assets/components/apps/CalendarApp.tsx:102-107 | three dash-free parts joined by dashes split back into exactly those parts |
| Calendar.DateKey | assets/components/apps/CalendarApp.tsx:98-103 | a key of a non-negative year splits into the year, the two-digit 1-based month and the two-digit day, and parses back to the year, the 0-based month and the day |
| Calendar.KeyPartsSplit | assets/components/apps/CalendarApp.tsx:98-102 | the rendered year, 1-based month and day joined by dashes split back into those three parts |
| Calendar.KeyPartsRoundTrip | assets/components/apps/CalendarApp.tsx:98-109 | reading the joined parts back gives the year, the 0-based month and the day |
| Calendar.DateKeyInjective | assets/components/apps/CalendarApp.tsx:143-154 | different days of one month get different keys |
| Calendar.GenerateCalendarGrid | assets/components/apps/CalendarApp.tsx:122-139 | the grid is `firstDay` empty cells followed by the days 1 to `daysInMonth` in order, and nothing else |
| Calendar.EventsForDate | assets/components/apps/CalendarApp.tsx:148-150 | exactly the events on that date are listed, all of them |
| Calendar.EventsForDateStep | assets/components/apps/CalendarApp.tsx:148-150 | the list for a date keeps stored order: one more event is listed exactly when it is on that date |
| Calendar.HasEvents | assets/components/apps/CalendarApp.tsx:142-145 | a day is marked exactly when some stored event carries its key |
| Calendar.HasEventsIffListed | assets/components/apps/CalendarApp.tsx:142-150 | a day of the shown month is marked exactly when the list for its key is non-empty |
| Calendar.WithoutEvent | assets/components/apps/CalendarApp.tsx:181 | no event with the deleted id is left and every other one is kept |
| Calendar.WithoutEventStep | assets/components/apps/CalendarApp.tsx:181 | deleting keeps the other events in stored order: one more event is kept exactly when its id differs |
| Calendar.DemoEvents | assets/components/apps/CalendarApp.tsx:44-63 | a first visit gets two events with different ids, dated today and tomorrow |
| Calendar.CalendarApp.constructor | assets/components/apps/CalendarApp.tsx:19-30 | the calendar starts on the given month with no events, no selection, the form closed and empty |
| Calendar.CalendarApp.Load | assets/components/apps/CalendarApp.tsx:33-68 | stored events are loaded; a corrupt entry gives no events; a first visit gets the demo events, which are written back |
| Calendar.CalendarApp.Persist | assets/components/apps/CalendarApp.tsx:71-75 | the list is written exactly when it is non-empty, so deleting the last event leaves the old list stored |
| Calendar.CalendarApp.PrevMonth | assets/components/apps/CalendarApp.tsx:78-85 | the shown month becomes `MonthBefore` of the old one; nothing else changes |
| Calendar.CalendarApp.NextMonth | assets/components/apps/CalendarApp.tsx:88-95 | the shown month becomes `MonthAfter` of the old one; nothing else changes |
| Calendar.CalendarApp.DateSelect | assets/components/apps/CalendarApp.tsx:153-157 | the selection becomes the day's key in the shown month and the form closes |
| Calendar.CalendarApp.EditForm | assets/components/apps/CalendarApp.tsx:25-30 | only the form fields change |
| Calendar.CalendarApp.AddEvent | assets/components/apps/CalendarApp.tsx:160-176 | without a title or a selected date nothing changes; otherwise exactly one event, dated the selected date, is appended and the form is emptied and closed |
| Calendar.CalendarApp.DeleteEvent | assets/components/apps/CalendarApp.tsx:179-183 | a confirmed delete removes the events with that id; an unconfirmed one changes nothing |
| Calendar.AddedEventIsListed | assets/components/apps/CalendarApp.tsx:142-176 | an event added on a selected day marks that day |
| Notes.NoteWithId | assets/components/apps/NotesApp.tsx:58 | a found note is in the list and has the id; nothing is found exactly when no note has the id |
| Notes.WithoutNote | assets/components/apps/NotesApp.tsx:87 | no note with the deleted id is left and every other one is kept |
| Notes.WithoutNoteStep | assets/components/apps/NotesApp.tsx:87 | deleting keeps the other notes in order: one more note is kept exactly when its id differs |
| Notes.SavedInto | assets/components/apps/NotesApp.tsx:97-101 | saving keeps the length, order and ids; the selected note gets the editor's title and content and today's date; every other note is unchanged |
| Notes.SelectionAfterDelete | assets/components/apps/NotesApp.tsx:88-90 | another note's deletion keeps the selection; deleting the selected note moves the selection to the first note of the list before deletion when it had more than one note, and clears it otherwise |
| Notes.EditorFor | assets/components/apps/NotesApp.tsx:55-66 | no selection clears the editor; a selection of a missing note keeps it; a selection of a present note loads that note's title and content |
| Seqs.WrittenList | assets/components/apps/NotesApp.tsx:48-52 | a list is written exactly when it is non-empty, and then unchanged; the save effects of the notes, the file manager (FileManagerApp.tsx:61-65), the calendar and the desktop icons share this rule |
| Notes.SavedNoteReadsBack | assets/components/apps/NotesApp.tsx:55-104 | saving a note and then selecting it brings back what was saved |
| Notes.SaveKeepsOthers | assets/components/apps/NotesApp.tsx:97-101 | saving leaves every other note as it was |
| Notes.DeletedFirstStaysSelected | assets/components/apps/NotesApp.tsx:85-92 | deleting the selected first note of a longer list leaves the selection on the deleted id, which no note has, so the editor keeps its text |
| Notes.DeletingOtherKeepsSelection | assets/components/apps/NotesApp.tsx:85-92 | deleting a note other than the selected one keeps the selection on a note that still exists |
| Notes.DeletingLastNoteWritesNothing | assets/components/apps/NotesApp.tsx:48-52 | deleting the only note writes nothing, so the deleted note stays stored |
| Notes.SavedFresh | assets/components/apps/NotesApp.tsx:97-101 | saving into a note appended under a fresh id changes only that last note |
| Notes.NotesApp.constructor | assets/components/apps/NotesApp.tsx:18-22 | no notes, no selection, an empty editor, not editing |
| Notes.NotesApp.Load | assets/components/apps/NotesApp.tsx:25-45 | stored notes are loaded; a corrupt entry gives no notes; a first visit gets the welcome note, which is written back |
| Notes.NotesApp.Persist | assets/components/apps/NotesApp.tsx:48-52 | what is written is `WrittenList` of the current list: nothing for an empty list |
| Notes.NotesApp.SyncSelection | assets/components/apps/NotesApp.tsx:55-66 | the editor becomes `EditorFor` the list and the selection |
| Notes.NotesApp.CreateNewNote | assets/components/apps/NotesApp.tsx:69-82 | an empty note titled "New Note" is appended, selected, loaded into the editor and opened for editing |
| Notes.NotesApp.SelectNote | assets/components/apps/NotesApp.tsx:138-141 | the clicked note is selected and editing stops |
| Notes.NotesApp.StartEditing | assets/components/apps/NotesApp.tsx:180 | editing starts and nothing else changes |
| Notes.NotesApp.EditText | assets/components/apps/NotesApp.tsx:164 | only the editor's title and content change |
| Notes.NotesApp.DeleteNote | assets/components/apps/NotesApp.tsx:85-92 | a confirmed delete gives `WithoutNote` and `SelectionAfterDelete`; an unconfirmed one changes nothing |
| Notes.NotesApp.SaveNote | assets/components/apps/NotesApp.tsx:95-104 | without a selection nothing changes; otherwise the list becomes `SavedInto` with the editor's text and editing stops |
| Notes.CreateEditSave | assets/components/apps/NotesApp.tsx:69-104 | creating a note under a fresh id, editing and saving it stores the edited text as the new last note and shows it in the editor |
| Shell.Id | assets/components/Desktop.tsx:105-119 | every application's cookie id is non-empty and holds no '=' |
| Shell.IdsDiffer | assets/components/Desktop.tsx:105-119 | different applications have different cookie ids |
| Shell.AppsListsEveryApp | assets/components/Desktop.tsx:150-241 | the taskbar lists every application |
| Shell.CookieWrite | assets/components/Desktop.tsx:144-147 | the cookie text starts with the entry `<id>Open=true` or `<id>Open=false` and ends with the one-year, site-wide attributes |
| Shell.AppState | assets/components/Desktop.tsx:97-102 | an application reads as open only if some entry names it with the flag `true`, and as closed when no entry names it |
| Shell.TerminalState | assets/components/Desktop.tsx:105-106 | the terminal is open when no terminal entry exists at all, and otherwise exactly when its entry reads `true` |
| Shell.EntryValue | assets/components/Desktop.tsx:101 | an entry `<id>Open=<v>` splits on '=' into its name and `v` |
| Shell.EntryReadsBack | assets/components/Desktop.tsx:99-102 | an application's own entry matches its name and reads back as the flag it records |
| Shell.NameBeforeEquals | assets/components/Desktop.tsx:100-101 | text starting with a '='-free name and '=' splits off that name first |
| Shell.EntriesDoNotCross | assets/components/Desktop.tsx:100 | one application's entry never matches another's name, so `youtubeOpen=` does not pick up `youtubeShortsOpen=` |
| Shell.JarOf | assets/components/Desktop.tsx:144-147 | the jar left by saving each application's flag holds one entry per application, in order, each recording its flag |
| Shell.JarReadsBack | assets/components/Desktop.tsx:99-102 | reading an application's flag from such a jar gives the flag that was saved |
| Shell.LoadRestoresSaved | assets/components/Desktop.tsx:96-119 | loading a jar with every application's saved entry gives back every saved flag |
| Shell.WallpaperBackground | assets/components/Desktop.tsx:138-141 | the background is the theme's image (dark for "dark", light otherwise) of a table entry that carries the requested id or is the first entry; which entry is fixed by `KnownWallpaperChosen` and `UnknownWallpaperFallsBack` |
| Shell.ShadesTellThemesApart | assets/components/WallpaperSelector.tsx:19-56 | every wallpaper's dark gradient starts with a dark colour and no light gradient does, so the theme can be read off the background |
| Shell.UnknownWallpaperFallsBack | assets/components/Desktop.tsx:139 | an unknown id falls back to the first wallpaper |
| Shell.KnownWallpaperChosen | assets/components/Desktop.tsx:139-140 | with distinct ids, a known id gives that wallpaper's image |
| Shell.WallpaperWrite | assets/components/Desktop.tsx:132-135 | the cookie text starts with `wallpaper=<id>` and ends with the one-year attributes; for an id without '=' the entry reads back as that id |
| Shell.StoredWallpaper | assets/components/Desktop.tsx:122-125 | a wallpaper id is read exactly when some entry starts with `wallpaper=` |
| Shell.WallpaperReadsBack | assets/components/Desktop.tsx:122-125 | a wallpaper entry written for an id without '=' reads back as that id |
| Shell.Desktop.constructor | assets/components/Desktop.tsx:38-56 | logged out, only the terminal open, the default wallpaper |
| Shell.Desktop.CheckLogin | assets/components/Desktop.tsx:59-64 | logged in when storage holds exactly "true"; otherwise unchanged |
| Shell.Desktop.Login | assets/components/Desktop.tsx:245-247 | the login screen's success logs the desktop in and changes nothing else |
| Shell.Desktop.LoadFromCookies | assets/components/Desktop.tsx:92-129 | logged out, nothing changes; logged in, the terminal gets `TerminalState`, every other application `AppState` of its id, and a stored wallpaper id replaces the current one |
| Shell.Desktop.Shutdown | assets/components/Desktop.tsx:68-82 | every application closes except the shorts player, which keeps its flag |
| Shell.Desktop.Toggle | assets/components/Desktop.tsx:143-157 | exactly that application's flag flips, and the cookie written records its new value |
| Shell.Desktop.Close | assets/components/Desktop.tsx:272-334 | the window's close button clears exactly that flag |
| Shell.Desktop.ChangeWallpaper | assets/components/Desktop.tsx:132-135 | the wallpaper id becomes the chosen one and its cookie is written |
| Shell.Desktop.Background | assets/components/Desktop.tsx:138-141 | the background is a wallpaper's dark image exactly when the theme is dark |
| Shell.ToggleTwice | assets/components/Desktop.tsx:144-156 | toggling twice restores every flag, and the last cookie records the original value |
| Shell.NoCookiesOpenOnlyTerminal | assets/components/Desktop.tsx:99-119 | with no cookies only the terminal opens |
| Shell.TerminalCookieFalseCloses | assets/components/Desktop.tsx:105-106 | an explicit `terminalOpen=false` keeps the terminal closed |
| Shorts.WheelDirection | assets/components/apps/YouTubeShortsApp.tsx:78-84 | the wheel goes next exactly when the vertical delta is positive, else back |
| Shorts.KeyDirection | assets/components/apps/YouTubeShortsApp.tsx:88-96 | the down arrow goes next, the up arrow back, and exactly the other keys do nothing |
| Shorts.Navigated | assets/components/apps/YouTubeShortsApp.tsx:69-75 | next moves one on unless at the last short, previous one back unless at the first, so an index in the list stays in it |
| Shorts.Toggled | assets/components/apps/YouTubeShortsApp.tsx:105-115 | the toggled id is liked afterwards exactly when it was not before; every other id keeps its state |
| Shorts.ToggleTwice | assets/components/apps/YouTubeShortsApp.tsx:105-115 | liking twice restores the set |
| Shorts.NextThenPrev | assets/components/apps/YouTubeShortsApp.tsx:69-75 | next then previous returns to the same short unless already at the last |
| Shorts.Steps | assets/components/apps/YouTubeShortsApp.tsx:69-75 | any number of navigations keeps the index inside the list |
| Shorts.StepsForwardSaturate | assets/components/apps/YouTubeShortsApp.tsx:69-72 | k steps forward move k shorts on, stopping at the last |
| Shorts.StepsBackSaturate | assets/components/apps/YouTubeShortsApp.tsx:69-75 | k steps back move k shorts back, stopping at the first |
| Shorts.YouTubeShortsApp.constructor | assets/components/apps/YouTubeShortsApp.tsx:20-21 | the first short is shown and nothing is liked |
| Shorts.YouTubeShortsApp.CurrentShort | assets/components/apps/YouTubeShortsApp.tsx:118 | the shown short is always one of the list |
| Shorts.YouTubeShortsApp.NavigateToShort | assets/components/apps/YouTubeShortsApp.tsx:69-75 | the index becomes `Navigated` of the old one; the likes are kept |
| Shorts.YouTubeShortsApp.Wheel | assets/components/apps/YouTubeShortsApp.tsx:78-84 | a positive vertical scroll goes next and any other, zero included, goes back |
| Shorts.YouTubeShortsApp.KeyDown | assets/components/apps/YouTubeShortsApp.tsx:88-96 | while open, the down arrow goes next and the up arrow back; any other key, or any key while closed, changes nothing |
| Shorts.YouTubeShortsApp.ToggleLike | assets/components/apps/YouTubeShortsApp.tsx:105-115 | the likes become `Toggled` of the old ones; the shown short is kept |
| Calculator.DigitStep | assets/components/apps/CalculatorApp.tsx:26-27 | a lone "0" is replaced by the digit; any other display gets the digit appended |
| Calculator.Typed | assets/components/apps/CalculatorApp.tsx:22-29 | typing onto a display other than "" and "0" appends the digits; the display always ends with the last digit typed |
| Calculator.DropLeadingZeros | assets/components/apps/CalculatorApp.tsx:22-29 | the result has no leading zero and is a suffix of the digits |
| Calculator.DropLeadingZerosAppend | assets/components/apps/CalculatorApp.tsx:22-29 | appending a digit extends the significant digits unless it is another leading zero |
| Calculator.TypedAfterClear | assets/components/apps/CalculatorApp.tsx:15-29 | typing digits after a clear shows them without leading zeros, or a single "0" when they are all zeros |
| Calculator.Dots | assets/components/apps/CalculatorApp.tsx:31-38 | the point count is at most the length, and zero exactly when the text has no point |
| Calculator.DotsAppend | assets/components/apps/CalculatorApp.tsx:31-38 | the decimal points of two joined texts add up |
| Calculator.DecimalStep | assets/components/apps/CalculatorApp.tsx:34-37 | a point is appended only when the display has none, so a display with at most one point keeps at most one |
| Calculator.Negated | assets/components/apps/CalculatorApp.tsx:107 | a leading minus is removed; otherwise one is put in front |
| Calculator.NegatedKeepsDots | assets/components/apps/CalculatorApp.tsx:107 | the +/- key neither adds nor removes a decimal point |
| Calculator.NegatedTwice | assets/components/apps/CalculatorApp.tsx:107 | pressing +/- twice restores the display |
| Calculator.CalculatorApp.constructor | assets/components/apps/CalculatorApp.tsx:10-13 | the display shows "0" with no stored value, no operator, not waiting |
| Calculator.CalculatorApp.ClearAll | assets/components/apps/CalculatorApp.tsx:15-20 | everything is back to the start state |
| Calculator.CalculatorApp.InputDigit | assets/components/apps/CalculatorApp.tsx:22-29 | while waiting the digit replaces the display; otherwise `DigitStep`; waiting ends; the display keeps at most one point |
| Calculator.CalculatorApp.InputDecimal | assets/components/apps/CalculatorApp.tsx:31-38 | while waiting the display becomes "0."; otherwise `DecimalStep`, which never adds a second point |
| Calculator.CalculatorApp.ToggleSign | assets/components/apps/CalculatorApp.tsx:107 | the display becomes `Negated` of the old one and keeps at most one decimal point |
| Calculator.CalculatorApp.PerformOperation | assets/components/apps/CalculatorApp.tsx:40-72 | the first operator only stores the display's value; later ones store and show the pending operator's result; either way a new operand is awaited and the new operator is pending; the display keeps at most one decimal point |
| Calculator.CalculatorApp.HandleEquals | assets/components/apps/CalculatorApp.tsx:74-78 | without both an operator and a stored value nothing changes; otherwise the result is stored and shown and no operator is pending; the display keeps at most one decimal point |
| Calculator.OnePlusTwo | assets/components/apps/CalculatorApp.tsx:15-78 | "1 + 2 =" with the sum supplied by the caller: the first operand is stored, the supplied result is stored and shown, and no operator stays pending |
| Clock.DialHour | assets/components/Taskbar.tsx:28 | the hour on the dial is 1..12 and agrees with the hour of the day modulo 12 |
| Clock.Meridiem | assets/components/Taskbar.tsx:29 | "PM" exactly from noon on, "AM" exactly before |
| Clock.TimeText | assets/components/Taskbar.tsx:26-30 | the time text starts with the dial hour and ':' and ends with " AM" or " PM" as the hour of the day says |
| Clock.DialHourAndMeridiem | assets/components/Taskbar.tsx:28-29 | the dial hour and the meridiem together determine the hour of the day |
| Clock.TimePartsSplit | assets/components/Taskbar.tsx:30 | the parts of `h:mm AM` split back apart at ':' and ' ' |
| Clock.TimeTextSplits | assets/components/Taskbar.tsx:26-30 | the time text splits at ':' and ' ' into the dial hour, the padded minutes (which read back as the minute) and the meridiem |
| Clock.TimeTextInjective | assets/components/Taskbar.tsx:26-30 | the time text determines the hour and the minute it was made from |
| Clock.NatToStringInjective | assets/components/Taskbar.tsx:30 | different numbers are written differently |
| Clock.MidnightAndNoon | assets/components/Taskbar.tsx:28-30 | hour 0 minute 5 reads "12:05 AM" and hour 12 minute 30 reads "12:30 PM" |
| Clock.ShortDate | assets/components/Taskbar.tsx:34-36 | the taskbar date starts with the three-letter day and month names and ends with the day of the month |
| Clock.LongDate | assets/components/LoginScreen.tsx:41-43 | the login date starts with the full day name, a comma and the full month name, and ends with the day of the month |
| Clock.ShortNamesAbbreviate | assets/components/Taskbar.tsx:34-35 | each three-letter name is the first three letters of the full name, and the short names are all different |
| Clock.ShortDateAbbreviatesLongDate | assets/components/Taskbar.tsx:34-36 | the taskbar date is the login date with every name cut to three letters and without the comma |
| Timestamp.Stamp | assets/components/TimeDisplay.tsx:23-30 | the line starts with the calendar's key for the same day and a space; for a non-negative year that part parses back to the date; with two-digit time fields it is 9 characters longer than the key |
| Timestamp.StampLayout | assets/components/TimeDisplay.tsx:23-30 | with a four-digit year and two-digit fields the line is 19 characters, with '-', '-', ' ', ':', ':' at fixed places and each padded field in its slot |
| Timestamp.FourDigitYear | assets/components/TimeDisplay.tsx:23-30 | a year from 1000 to 9999 is written with four digits |
| Text.Pad2PadsStart | assets/components/TimeDisplay.tsx:24-28 | the two-digit field is `String(n).padStart(2, '0')`: a single digit gets a leading zero, longer numbers are shown as they are |
| Weather.WeatherIcon | assets/components/apps/WeatherApp.tsx:50-66 | on the lower-cased condition: sun or clear gives the sun; failing those rain, then snow, then thunder or lightning, then wind; each exactly when the earlier words are absent |
| Weather.IconIgnoresCase | assets/components/apps/WeatherApp.tsx:51 | the choice ignores letter case |
| Weather.SunComesFirst | assets/components/apps/WeatherApp.tsx:53-54 | "sun" anywhere gives the sun, whatever else the text holds |
| Weather.NoKeyWordIsCloud | assets/components/apps/WeatherApp.tsx:63-65 | a condition with none of the key words gets the cloud |
| Weather.MissingLetter | assets/components/apps/WeatherApp.tsx:53-61 | a word holding a letter the text lacks does not occur in it |
| Weather.CloudWithoutKeyLetters | assets/components/apps/WeatherApp.tsx:53-65 | a condition without the letters s, e, i and w gets the cloud |
| Weather.DemoConditionIsCloud | assets/components/apps/WeatherApp.tsx:63-65 | the demo condition "Partly Cloudy" gets the cloud |
| Weather.RainyIsRain | assets/components/apps/WeatherApp.tsx:55-56 | the fourth forecast condition is "Rainy" and gets the rain icon |
| Weather.RainWithoutSunLetters | assets/components/apps/WeatherApp.tsx:53-56 | a condition starting with "rain" and without the letters s and e gets the rain icon |
| Login.RegistrationWrites | assets/components/LoginScreen.tsx:68-71 | a registration writes the user name, the clear-text password and the logged-in flag, and nothing else |
| Login.Stored | assets/components/LoginScreen.tsx:68-84 | a key no write touches keeps its old value |
| Login.RegistrationStoresCredentials | assets/components/LoginScreen.tsx:68-71 | after a registration the stored user name and password are the ones chosen |
| Login.LoginScreen.constructor | assets/components/LoginScreen.tsx:9-15 | empty fields, sign-in mode, no error, not loading, no clock text |
| Login.LoginScreen.Mount | assets/components/LoginScreen.tsx:18-25 | without a stored user name (missing or empty) the form registers; with one, the name is filled in |
| Login.LoginScreen.UpdateDateTime | assets/components/LoginScreen.tsx:29-45 | the clock shows `TimeText` and `LongDate` of the current date's fields |
| Login.LoginScreen.EditCredentials | assets/components/LoginScreen.tsx:9-10 | only the user name and password fields change |
| Login.LoginScreen.ToggleMode | assets/components/LoginScreen.tsx:193-196 | the mode flips and the error clears |
| Login.LoginScreen.HandleSubmit | assets/components/LoginScreen.tsx:54-95 | registration is accepted exactly when the password's JavaScript length (UTF-16 code units) is at least 4, sign-in exactly when both fields equal the stored values; an acceptance writes the credentials (registration) or the logged-in flag (sign-in) and keeps loading; a refusal writes nothing, stops loading and shows the fixed message |
| Login.LoginScreen.DelayElapsed | assets/components/LoginScreen.tsx:73-76 | the delay after a success ends loading |
| Text.Utf16Length | assets/components/LoginScreen.tsx:61 | `password.length` counts UTF-16 code units: between one and two per character, exactly one each when no character is above U+FFFF and exactly two each when all are |
| Login.TwoEmojiPasswordLongEnough | assets/components/LoginScreen.tsx:61 | a password of two emoji has two characters but length 4, so registration accepts it |
| Login.RegisterThenSignIn | assets/components/LoginScreen.tsx:18-95 | registering and later signing in with the same credentials is accepted |

## Left out

- Rendering: JSX, CSS, icons and the presentation-only components (`XenzOSLogo`, `AppIcons`, `MessageDisplay`, `GamesApp`, `VPNApp`, `TerminalApp`, `AppBase`). They hold no logic beyond forwarding defaults.
- Embedded pages: the Spotify and YouTube applications and the browser's page are iframes, so there is nothing to model beyond their open flags.
- Thin UI: `WallpaperSelector` contributes only its wallpaper table, which is copied into `Shell.DefaultWallpapers`. `SettingsApp` writes a style on the document root and repeats the wallpaper lookup; it is not part of this model.
- Browser I/O is not performed. Local storage reads are parameters and writes are returned values. The same holds for cookies, `confirm`, `prompt`, `alert`, `window.location.reload`, the custom shutdown event, and timers (each timer's effect is its own step). The `logout` and `shutdown` commands are modelled only as their effects.
- Storage keys and JSON: notes, events and files are stored as values. The key strings and JSON encoding are not modelled, and a parse failure is the `Corrupt` case.
- Cookie parsing: the jar arrives already split on "; ". A value containing "; " is not considered.
- DOM listeners and geometry: attaching and detaching listeners, `getBoundingClientRect`, and focus and scrolling effects. The window's rectangle is its position plus its size.
- React closures and batching are not replicated.
  - The window's resize listener sees the position from resize start. This is modelled as a start snapshot.
  - The icon layer's pointer listeners are those of the render before the press, so they see no dragged id (see Findings). `DesktopFiles.ListenerMouseMove` models that listener; `MouseMove` is the handler reading the current state.
  - The seeding effect's two pin requests read the same state (see Findings).
  - The terminal's custom `help` and `history` closures see only the first render. That is modelled faithfully: `history` never has entries, and `help` is shadowed by the built-in anyway.
- Floating point: the calculator's `parseFloat`, arithmetic and `String(number)` are supplied by the caller as values. The `%` key and `NaN` are left out; `previousValue \|\| 0` differs from the stored value only for `NaN`, so it is not modelled.
- The weather forecast's random temperatures and conditions, the simulated request delay, and the location search.
- The `Date` library: the day count of a month, the weekday of the first day, `toString`, `toLocaleString` and `toLocaleDateString` are parameters or plain strings.
- Text: lower-casing is ASCII only, and `localeCompare` is taken as ordinal character order. `trim` removes ASCII white space only; the other white space JavaScript also strips (U+00A0, U+FEFF, U+2028, U+2029 and the Unicode space separators) is kept. `Number` on a date-key part is modelled for digit strings only; any other part reads as no number. String lengths are Dafny character counts, except the password rule, which counts UTF-16 code units as JavaScript's `length` does (`Text.Utf16Length`); `padEnd` on a command name in the help listing therefore treats a character above U+FFFF as one position where JavaScript counts two.
- Calculator.CalculatorApp.PerformOperation: does not compute the result itself. The caller supplies the pending operator's result and its rendering, so the contract states the control flow only.
- Calculator.CalculatorApp.HandleEquals: the same; the result is supplied by the caller.
- Calculator.OnePlusTwo: the sum 3 and its text "3" are supplied to `HandleEquals` by the caller, so the scenario checks the key handling, not the arithmetic.
- Calculator.NegatedTwice: requires a display that does not start with "--". The +/- key is an involution only there, and no key sequence produces such a display.
- Commands.ExecuteReply: its own contract covers only lines whose name no command has. Lines naming a command are covered by the separate lemma `ExecuteRunsFirstMatch`, and for particular commands by `ClearClears`, `EchoReturnsRest` and the terminal lemmas.
- The built-in `date` command's text is whatever the date library returns (a `Context` field).
- Clock.TimeText and Timestamp.Stamp: minutes, fields and years are natural numbers, since the date library never yields negative ones.

## Findings

| source | as written | input that shows it | evidently intended | confidence | as-written member | corrected member |
|---|---|---|---|---|---|---|
| assets/components/DesktopFiles.tsx:155-166 | the seeding effect calls `addFileToDesktop` twice in one pass; both calls read the same empty list and positions, so the second call's state replaces the first | files `[welcome text file, image]` and an empty desktop: only the image ends up pinned, in slot 0 | pin the welcome file and then the first image, one after the other, in slots 0 and 1 | not executed | DesktopIcons.SeedAsWrittenDropsWelcome | DesktopIcons.SeedPinsBoth |
| assets/components/DesktopFiles.tsx:103-137 | the press registers `handleMouseMove` from the render before `setDraggingFile` takes effect; that closure sees `draggingFile` as null and never moves an icon | an idle desktop with a placed icon: press on it and move the pointer, and the icon stays where it was | the dragged icon follows the pointer, keeping the offset of the press | not executed | DesktopIcons.DragAsWritten | DesktopIcons.DragMovesIcon |
