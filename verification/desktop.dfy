/**
 * The desktop shell (assets/components/Desktop.tsx): the login flag, one
 * open flag per application, the wallpaper choice, and the cookies that
 * keep the open flags and the wallpaper across visits.
 *
 * The cookie jar is passed in already split into its `name=value` entries
 * (the `document.cookie.split('; ')` list); a cookie write is returned as
 * the text assigned to `document.cookie`. The theme comes from the theme
 * provider and is a parameter.
 */
module Shell {
  import opened Wrappers
  import opened Text
  import opened Seqs

  /** The thirteen applications the desktop can open. */
  datatype App =
    | Terminal | FileManager | NotesApp | CalendarApp | BrowserApp | Weather | Calculator
    | Games | Vpn | Youtube | YoutubeShorts | Spotify | Settings

  /** The application's id, the stem of its cookie name. */
  function Id(app: App): (id: string)
    ensures '=' !in id && |id| > 0
  {
    match app
    case Terminal => "terminal"
    case FileManager => "fileManager"
    case NotesApp => "notes"
    case CalendarApp => "calendar"
    case BrowserApp => "browser"
    case Weather => "weather"
    case Calculator => "calculator"
    case Games => "games"
    case Vpn => "vpn"
    case Youtube => "youtube"
    case YoutubeShorts => "youtubeShorts"
    case Spotify => "spotify"
    case Settings => "settings"
  }

  /** The applications in taskbar order. */
  const Apps: seq<App> := [Terminal, FileManager, NotesApp, CalendarApp, BrowserApp, Weather, Calculator,
                           Games, Vpn, Youtube, YoutubeShorts, Spotify, Settings]

  lemma AppsListsEveryApp(app: App)
    ensures app in Apps
  {
  }

  const CookieAttributes := "; max-age=31536000; path=/"

  /** The `name=value` entry that records an application's open flag. */
  function Entry(app: App, isOpen: bool): string {
    Id(app) + "Open=" + (if isOpen then "true" else "false")
  }

  /** The text `saveAppState` assigns to `document.cookie`. */
  function CookieWrite(app: App, isOpen: bool): (r: string)
    ensures StartsWith(r, Entry(app, isOpen)) && EndsWith(r, CookieAttributes)
  {
    var r := Entry(app, isOpen) + CookieAttributes;
    assert r[..|Entry(app, isOpen)|] == Entry(app, isOpen);
    assert r[|r| - |CookieAttributes|..] == CookieAttributes;
    r
  }

  // -------------------------------------------------------------------------
  // Reading the cookies

  /** The cookie test `c.startsWith(`${appId}Open=`)`. */
  predicate NamesApp(c: string, id: string) {
    StartsWith(c, id + "Open=")
  }

  /**
   * `getAppState`: the first entry whose name is `<id>Open` decides; the
   * flag is set iff the text between its first and second `=` is `true`.
   * No such entry means closed.
   */
  function AppState(cookies: seq<string>, id: string): (isOpen: bool)
    ensures isOpen ==> exists c :: c in cookies && NamesApp(c, id) && Flag(c)
    ensures (forall i :: 0 <= i < |cookies| ==> !NamesApp(cookies[i], id)) ==> !isOpen
  {
    match Find(cookies, (c: string) => NamesApp(c, id))
    case None => false
    case Some(c) => Flag(c)
  }

  /** An entry's flag: the text between its first and second `=` is `true`. */
  predicate Flag(c: string) {
    var parts := Split(c, '=');
    |parts| > 1 && parts[1] == "true"
  }

  /** The first entry decides when it names the application; otherwise the rest of the jar does. */
  lemma AppStateStep(cookies: seq<string>, id: string)
    requires |cookies| > 0
    ensures AppState(cookies, id) == if NamesApp(cookies[0], id) then Flag(cookies[0]) else AppState(cookies[1..], id)
  {
    FindStep(cookies, (c: string) => NamesApp(c, id));
  }

  /** The terminal is open when its entry says so, or when there is no terminal entry at all. */
  function TerminalState(cookies: seq<string>): (r: bool)
    ensures !Any(cookies, (c: string) => NamesApp(c, Id(Terminal))) ==> r
    ensures Any(cookies, (c: string) => NamesApp(c, Id(Terminal))) ==> r == AppState(cookies, Id(Terminal))
  {
    AppState(cookies, Id(Terminal)) || !Any(cookies, (c: string) => NamesApp(c, Id(Terminal)))
  }

  /** The value of an entry `<id>Open=<v>` reads back as `v` when neither part holds a `=`. */
  lemma EntryValue(id: string, v: string)
    requires '=' !in id && '=' !in v
    ensures Split(id + "Open=" + v, '=') == [id + "Open", v]
  {
    assert '=' !in id + "Open";
    assert id + "Open=" + v == (id + "Open") + ['='] + v;
    SplitAfter(id + "Open", '=', v);
    SplitNoSeparator(v, '=');
  }

  /** An entry's own name matches, and reading it gives the flag it records. */
  lemma EntryReadsBack(app: App, isOpen: bool)
    ensures NamesApp(Entry(app, isOpen), Id(app))
    ensures Flag(Entry(app, isOpen)) == isOpen
  {
    var v := if isOpen then "true" else "false";
    EntryValue(Id(app), v);
    assert Entry(app, isOpen) == Id(app) + "Open=" + v;
    assert Entry(app, isOpen)[..|Id(app) + "Open="|] == Id(app) + "Open=";
  }

  /** Text that starts with a `=`-free name and a `=` splits off that name first. */
  lemma NameBeforeEquals(e: string, name: string)
    requires '=' !in name && StartsWith(e, name + "=")
    ensures Split(e, '=')[0] == name
  {
    assert e == name + ['='] + e[|name| + 1..];
    SplitAfter(name, '=', e[|name| + 1..]);
  }

  /**
   * No application's entry is taken for another's: in particular a
   * `youtubeShortsOpen=` entry is not a `youtubeOpen=` entry.
   */
  lemma EntriesDoNotCross(a: App, b: App, isOpen: bool)
    requires a != b
    ensures !NamesApp(Entry(b, isOpen), Id(a))
  {
    IdsDiffer(a, b);
    OtherNameNotNamed(Id(a), Id(b), if isOpen then "true" else "false");
  }

  /** An entry is not named by an id different from the one it was written with. */
  lemma OtherNameNotNamed(id: string, name: string, v: string)
    requires '=' !in id && '=' !in name && '=' !in v && id != name
    ensures !NamesApp(name + "Open=" + v, id)
  {
    var e := name + "Open=" + v;
    if NamesApp(e, id) {
      EntryValue(name, v);
      assert id + "Open" + "=" == id + "Open=";
      NameBeforeEquals(e, id + "Open");
      SameBeforeSuffix(id, name, "Open");
    }
  }

  lemma SameBeforeSuffix(x: string, y: string, suffix: string)
    requires x + suffix == y + suffix
    ensures x == y
  {
    assert x == (x + suffix)[..|x|] && y == (y + suffix)[..|y|];
  }

  /** No two applications share an id: each is told apart by its first letter and its length. */
  lemma IdsDiffer(a: App, b: App)
    requires a != b
    ensures Id(a) != Id(b)
  {
    if |Id(a)| == |Id(b)| {
      assert Id(a)[0] != Id(b)[0];
    }
  }

  /** The jar that saving every application's flag leaves behind, in the order of `apps`. */
  /** The saved jar holds one entry per application, in the order of `apps`, each recording its flag. */
  function JarOf(flags: map<App, bool>, apps: seq<App>): (jar: seq<string>)
    requires forall i :: 0 <= i < |apps| ==> apps[i] in flags
    ensures |jar| == |apps|
    ensures forall i :: 0 <= i < |apps| ==> jar[i] == Entry(apps[i], flags[apps[i]])
    decreases |apps|
  {
    if |apps| == 0 then []
    else
      var rest := JarOf(flags, apps[1..]);
      assert forall i :: 1 <= i < |apps| ==> apps[i] == apps[1..][i - 1];
      [Entry(apps[0], flags[apps[0]])] + rest
  }

  /** A saved jar's first entry answers for its own application and is passed over by every other. */
  lemma JarStep(flags: map<App, bool>, apps: seq<App>, app: App)
    requires |apps| > 0 && forall i :: 0 <= i < |apps| ==> apps[i] in flags
    ensures AppState(JarOf(flags, apps), Id(app)) ==
      if apps[0] == app then flags[app] else AppState(JarOf(flags, apps[1..]), Id(app))
  {
    var jar := JarOf(flags, apps);
    assert jar == [Entry(apps[0], flags[apps[0]])] + JarOf(flags, apps[1..]);
    AppStateStep(jar, Id(app));
    if apps[0] == app {
      EntryReadsBack(app, flags[app]);
    } else {
      EntriesDoNotCross(app, apps[0], flags[apps[0]]);
    }
  }

  /** Reading an application's flag from a jar of saved entries gives the flag that was saved. */
  lemma {:induction false} JarReadsBack(flags: map<App, bool>, apps: seq<App>, app: App)
    requires forall i :: 0 <= i < |apps| ==> apps[i] in flags
    requires app in apps
    ensures AppState(JarOf(flags, apps), Id(app)) == flags[app]
    decreases |apps|
  {
    JarStep(flags, apps, app);
    if apps[0] != app {
      assert app in apps[1..];
      JarReadsBack(flags, apps[1..], app);
    }
  }

  /** Loading a jar that holds one entry per application gives back every flag that was saved. */
  lemma LoadRestoresSaved(flags: map<App, bool>, app: App)
    requires forall a :: a in flags
    ensures AppState(JarOf(flags, Apps), Id(app)) == flags[app]
  {
    AppsListsEveryApp(app);
    JarReadsBack(flags, Apps, app);
  }

  // -------------------------------------------------------------------------
  // Wallpapers

  datatype Wallpaper = Wallpaper(id: string, name: string, darkUrl: string, lightUrl: string)

  const DefaultWallpapers: seq<Wallpaper> := [
    Wallpaper("default", "Default Gradient",
      "linear-gradient(to bottom, #1a1a2e, #16213e, #0f3460)", "linear-gradient(to bottom, #f5f7fa, #c3cfe2)"),
    Wallpaper("mojave", "Mojave",
      "linear-gradient(to bottom, #0f2027, #203a43, #2c5364)", "linear-gradient(to bottom, #2193b0, #6dd5ed)"),
    Wallpaper("catalina", "Catalina",
      "linear-gradient(to bottom, #0f0c29, #302b63, #24243e)", "linear-gradient(to bottom, #8e2de2, #4a00e0)"),
    Wallpaper("bigsur", "Big Sur",
      "linear-gradient(to bottom, #000428, #004e92)", "linear-gradient(to bottom, #56ccf2, #2f80ed)"),
    Wallpaper("monterey", "Monterey",
      "linear-gradient(to bottom, #000000, #434343)", "linear-gradient(to bottom, #e0eafc, #cfdef3)"),
    Wallpaper("ventura", "Ventura",
      "linear-gradient(to bottom, #232526, #414345)", "linear-gradient(to bottom, #de6262, #ffb88c)")
  ]

  /**
   * `getCurrentWallpaper`: the first wallpaper in `table` with the chosen id,
   * or the table's first one; its dark background in the dark theme and its
   * light one otherwise.
   */
  function WallpaperBackground(table: seq<Wallpaper>, wallpaperId: string, theme: string): (r: string)
    requires |table| > 0
    ensures exists i :: (0 <= i < |table| && (table[i].id == wallpaperId || i == 0)
                          && r == (if theme == "dark" then table[i].darkUrl else table[i].lightUrl))
  {
    var w := Find(table, (w: Wallpaper) => w.id == wallpaperId);
    var chosen := if w.Some? then w.value else table[0];
    if theme == "dark" then chosen.darkUrl else chosen.lightUrl
  }

  /** The first colour of a dark background starts with 0, 1 or 23; no light background's does. */
  predicate DarkShade(url: string) {
    |url| > 29 && (url[28] == '0' || url[28] == '1' || (url[28] == '2' && url[29] == '3'))
  }

  /** Every dark background is told apart from every light one by its first colour. */
  lemma ShadesTellThemesApart()
    ensures forall i :: 0 <= i < |DefaultWallpapers| ==> DarkShade(DefaultWallpapers[i].darkUrl)
    ensures forall i :: 0 <= i < |DefaultWallpapers| ==> !DarkShade(DefaultWallpapers[i].lightUrl)
  {
    forall i | 0 <= i < |DefaultWallpapers|
      ensures DarkShade(DefaultWallpapers[i].darkUrl) && !DarkShade(DefaultWallpapers[i].lightUrl)
    {
      var w := DefaultWallpapers[i];
      assert |w.darkUrl| > 29 && |w.lightUrl| > 29;
      assert w.darkUrl[28] in "012" && w.lightUrl[28] !in "01";
    }
  }

  /** An id that names no wallpaper falls back to the first one. */
  lemma UnknownWallpaperFallsBack(table: seq<Wallpaper>, wallpaperId: string, theme: string)
    requires |table| > 0 && forall i :: 0 <= i < |table| ==> table[i].id != wallpaperId
    ensures WallpaperBackground(table, wallpaperId, theme) ==
      if theme == "dark" then table[0].darkUrl else table[0].lightUrl
  {
  }

  /** A known id gives that wallpaper's background when ids are distinct. */
  lemma KnownWallpaperChosen(table: seq<Wallpaper>, k: nat, theme: string)
    requires k < |table| && forall i, j :: 0 <= i < j < |table| ==> table[i].id != table[j].id
    ensures WallpaperBackground(table, table[k].id, theme) ==
      if theme == "dark" then table[k].darkUrl else table[k].lightUrl
  {
    FindFirst(table, (w: Wallpaper) => w.id == table[k].id, k);
  }

  /**
   * The wallpaper cookie: the entry `wallpaper=<id>` and the attributes. The
   * entry the jar then holds reads back as the id when the id has no `=`.
   */
  function WallpaperWrite(wallpaperId: string): (r: string)
    ensures StartsWith(r, "wallpaper=" + wallpaperId) && EndsWith(r, CookieAttributes)
    ensures '=' !in wallpaperId ==> StoredWallpaper([r[..|r| - |CookieAttributes|]]) == Some(wallpaperId)
  {
    var entry := "wallpaper=" + wallpaperId;
    var r := entry + CookieAttributes;
    assert r[..|entry|] == entry;
    assert r[|r| - |CookieAttributes|..] == CookieAttributes;
    assert r[..|r| - |CookieAttributes|] == entry;
    if '=' !in wallpaperId then
      WallpaperReadsBack(wallpaperId);
      r
    else r
  }

  /** The wallpaper id a jar records: the text between the first and second `=` of the first `wallpaper=` entry. */
  function StoredWallpaper(cookies: seq<string>): (r: Option<string>)
    ensures r.Some? <==> Any(cookies, (c: string) => StartsWith(c, "wallpaper="))
  {
    match Find(cookies, (c: string) => StartsWith(c, "wallpaper="))
    case None => None
    case Some(c) =>
      var parts := Split(c, '=');
      Some(if |parts| > 1 then parts[1] else "")
  }

  /** A wallpaper entry written for an id without `=` reads back as that id. */
  lemma WallpaperReadsBack(wallpaperId: string)
    requires '=' !in wallpaperId
    ensures StoredWallpaper(["wallpaper=" + wallpaperId]) == Some(wallpaperId)
  {
    var c := "wallpaper=" + wallpaperId;
    assert c[..10] == "wallpaper=";
    assert c == "wallpaper" + ['='] + wallpaperId;
    SplitAfter("wallpaper", '=', wallpaperId);
    SplitNoSeparator(wallpaperId, '=');
    FindFirst([c], (c: string) => StartsWith(c, "wallpaper="), 0);
  }

  // -------------------------------------------------------------------------
  // The component

  class Desktop {
    var isLoggedIn: bool
    var open: map<App, bool>
    var currentWallpaperId: string

    /** Every application has an open flag. */
    ghost predicate Valid()
      reads this
    {
      forall a :: a in open
    }

    /** At first only the terminal is open, with the default wallpaper, logged out. */
    constructor ()
      ensures Valid() && !isLoggedIn && currentWallpaperId == "default"
      ensures forall a :: open[a] == (a == Terminal)
    {
      isLoggedIn := false;
      forall a ensures a in Apps {
        AppsListsEveryApp(a);
      }
      open := map a | a in Apps :: a == Terminal;
      currentWallpaperId := "default";
    }

    /** The login check at mount: logged in iff storage says exactly "true". */
    method CheckLogin(storedLoggedIn: Option<string>)
      modifies this
      ensures storedLoggedIn == Some("true") ==> isLoggedIn
      ensures storedLoggedIn != Some("true") ==> isLoggedIn == old(isLoggedIn)
      ensures open == old(open) && currentWallpaperId == old(currentWallpaperId)
    {
      if storedLoggedIn == Some("true") {
        isLoggedIn := true;
      }
    }

    method Login()
      modifies this
      ensures isLoggedIn
      ensures open == old(open) && currentWallpaperId == old(currentWallpaperId)
    {
      isLoggedIn := true;
    }

    /**
     * Loading from cookies, only when logged in: each flag from its entry
     * (the terminal open by default), and the wallpaper when one is recorded.
     */
    method LoadFromCookies(cookies: seq<string>)
      requires Valid()
      modifies this
      ensures Valid() && isLoggedIn == old(isLoggedIn)
      ensures !old(isLoggedIn) ==> open == old(open) && currentWallpaperId == old(currentWallpaperId)
      ensures old(isLoggedIn) ==>
        && open[Terminal] == TerminalState(cookies)
        && (forall a :: a != Terminal ==> open[a] == AppState(cookies, Id(a)))
        && currentWallpaperId == (if StoredWallpaper(cookies).Some? then StoredWallpaper(cookies).value else old(currentWallpaperId))
    {
      if !isLoggedIn {
        return;
      }
      open := map a: App :: if a == Terminal then TerminalState(cookies) else AppState(cookies, Id(a));
      var stored := StoredWallpaper(cookies);
      if stored.Some? {
        currentWallpaperId := stored.value;
      }
    }

    /** The shutdown event closes every application except the shorts player, which it misses. */
    method Shutdown()
      requires Valid()
      modifies this
      ensures Valid()
      ensures forall a :: open[a] == (if a == YoutubeShorts then old(open)[a] else false)
      ensures isLoggedIn == old(isLoggedIn) && currentWallpaperId == old(currentWallpaperId)
    {
      open := map a: App :: if a == YoutubeShorts then open[a] else false;
    }

    /** A taskbar toggle flips one flag and records its new value in a cookie. */
    method Toggle(app: App) returns (cookie: string)
      requires Valid()
      modifies this
      ensures Valid()
      ensures open == old(open)[app := !old(open)[app]]
      ensures cookie == CookieWrite(app, open[app])
      ensures isLoggedIn == old(isLoggedIn) && currentWallpaperId == old(currentWallpaperId)
    {
      var isOpen := !open[app];
      cookie := CookieWrite(app, isOpen);
      open := open[app := isOpen];
    }

    /** A window's close button clears its flag; no cookie is written. */
    method Close(app: App)
      requires Valid()
      modifies this
      ensures Valid()
      ensures open == old(open)[app := false]
      ensures isLoggedIn == old(isLoggedIn) && currentWallpaperId == old(currentWallpaperId)
    {
      open := open[app := false];
    }

    /** Choosing a wallpaper records it and writes its cookie. */
    method ChangeWallpaper(wallpaperId: string) returns (cookie: string)
      modifies this
      ensures currentWallpaperId == wallpaperId && cookie == WallpaperWrite(wallpaperId)
      ensures isLoggedIn == old(isLoggedIn) && open == old(open)
    {
      currentWallpaperId := wallpaperId;
      cookie := WallpaperWrite(wallpaperId);
    }

    /** The background drawn for the current wallpaper in the given theme. */
    function Background(theme: string): (r: string)
      reads this
      ensures theme == "dark" <==> exists i :: 0 <= i < |DefaultWallpapers| && r == DefaultWallpapers[i].darkUrl
    {
      ShadesTellThemesApart();
      WallpaperBackground(DefaultWallpapers, currentWallpaperId, theme)
    }
  }

  /** Toggling twice restores the flag, and the last cookie written records it. */
  method ToggleTwice(d: Desktop, app: App) returns (cookie: string)
    requires d.Valid()
    modifies d
    ensures d.open == old(d.open)
    ensures cookie == CookieWrite(app, old(d.open)[app])
  {
    var _ := d.Toggle(app);
    cookie := d.Toggle(app);
  }

  /** A fresh visit with no cookies opens only the terminal. */
  lemma NoCookiesOpenOnlyTerminal(app: App)
    ensures TerminalState([])
    ensures app != Terminal ==> !AppState([], Id(app))
  {
  }

  /** An explicit `terminalOpen=false` entry keeps the terminal closed. */
  lemma TerminalCookieFalseCloses()
    ensures !TerminalState([Entry(Terminal, false)])
  {
    EntryReadsBack(Terminal, false);
    FindFirst([Entry(Terminal, false)], (c: string) => NamesApp(c, Id(Terminal)), 0);
  }
}
