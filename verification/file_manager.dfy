/**
 * The file manager application (assets/components/apps/FileManagerApp.tsx):
 * a flat list of file records, a display path that folder clicks extend and
 * the back button shortens, a case-insensitive name search, upload and
 * new-folder actions, and deletion by id.
 *
 * `prompt` answers are `Option<string>` parameters, `confirm` answers are
 * booleans, and the `Date.now()` id and the localised date are parameters.
 */
module FileManager {
  import opened Wrappers
  import opened Text
  import opened Seqs

  datatype FileType = Folder | Image | Video | Audio | Document | Other

  datatype FileItem = FileItem(
    id: string,
    name: string,
    kind: FileType,
    lastModified: string,
    content: Option<string>,
    preview: Option<string>)

  const RootPath := "/"
  const UploadedDocumentText := "This is a sample document."
  const UploadedImagePreview := "linear-gradient(135deg, #667eea 0%, #764ba2 100%)"
  const WelcomeText := "Welcome to XenzOS!\n\nThis is your personal operating system in the browser. Use the File Manager to organize your files and folders.\n\nEnjoy using XenzOS!"
  const SampleImagePreview := "linear-gradient(to right, #4facfe 0%, #00f2fe 100%)"

  /** What local storage holds under the files key; an empty entry counts as missing. */
  datatype StoredFiles = Missing | Corrupt | Saved(files: seq<FileItem>)

  // -------------------------------------------------------------------------
  // The default file system

  /**
   * The six records a first visit starts with, all dated `today`: four
   * folders, then a text document with the welcome text and an image with a
   * preview. Ids and names are all different, and each file's type is the
   * one an upload of that name would get.
   */
  function DefaultFiles(today: string): (r: seq<FileItem>)
    ensures |r| == 6
    ensures forall i, j :: 0 <= i < j < |r| ==> r[i].id != r[j].id && r[i].name != r[j].name
    ensures forall i :: 0 <= i < |r| ==> r[i].lastModified == today
    ensures forall i :: 0 <= i < 4 ==> r[i].kind == Folder && r[i].content == None && r[i].preview == None
    ensures forall i :: 4 <= i < |r| ==> r[i].kind == TypeFromName(r[i].name)
    ensures r[4].name == "XenzOS_Welcome.txt" && r[5].name == "sample_image.jpg"
    ensures r[4].kind == Document && r[4].content == Some(WelcomeText) && r[4].preview == None
    ensures r[5].kind == Image && r[5].preview == Some(SampleImagePreview) && r[5].content == None
  {
    assert EndsWith("XenzOS_Welcome.txt", ".txt");
    assert EndsWith("sample_image.jpg", ".jpg");
    [ FileItem("1", "Documents", Folder, today, None, None),
      FileItem("2", "Photos", Folder, today, None, None),
      FileItem("3", "Videos", Folder, today, None, None),
      FileItem("4", "Music", Folder, today, None, None),
      FileItem("5", "XenzOS_Welcome.txt", Document, today, Some(WelcomeText), None),
      FileItem("6", "sample_image.jpg", Image, today, None, Some(SampleImagePreview)) ]
  }

  // -------------------------------------------------------------------------
  // Type by extension

  /**
   * The type an uploaded file gets from its name; the extension tests are
   * case-sensitive and the first one that matches wins.
   */
  function TypeFromName(name: string): (t: FileType)
    ensures t == Image <==> EndsWith(name, ".jpg") || EndsWith(name, ".png")
    ensures t == Video <==> !(EndsWith(name, ".jpg") || EndsWith(name, ".png")) && EndsWith(name, ".mp4")
    ensures t == Audio <==> !(EndsWith(name, ".jpg") || EndsWith(name, ".png") || EndsWith(name, ".mp4"))
                            && EndsWith(name, ".mp3")
    ensures t == Document <==> !(EndsWith(name, ".jpg") || EndsWith(name, ".png") || EndsWith(name, ".mp4")
                                 || EndsWith(name, ".mp3"))
                               && (EndsWith(name, ".txt") || EndsWith(name, ".doc"))
    ensures t != Folder
  {
    if EndsWith(name, ".jpg") || EndsWith(name, ".png") then Image
    else if EndsWith(name, ".mp4") then Video
    else if EndsWith(name, ".mp3") then Audio
    else if EndsWith(name, ".txt") || EndsWith(name, ".doc") then Document
    else Other
  }

  /** The record an upload creates: only documents get text and only images get a preview. */
  function UploadedFile(name: string, id: string, today: string): (f: FileItem)
    ensures f.id == id && f.name == name && f.kind == TypeFromName(name) && f.lastModified == today
    ensures f.content.Some? <==> f.kind == Document
    ensures f.preview.Some? <==> f.kind == Image
  {
    var t := TypeFromName(name);
    FileItem(id, name, t, today,
      if t == Document then Some(UploadedDocumentText) else None,
      if t == Image then Some(UploadedImagePreview) else None)
  }

  // -------------------------------------------------------------------------
  // Search

  predicate NameMatches(f: FileItem, query: string) {
    Contains(Lower(f.name), Lower(query))
  }

  /**
   * The files listed for a search query.  The current path plays no part: an
   * empty query lists everything, any other keeps the files whose lower-cased
   * name contains the lower-cased query, in their original order.
   */
  function VisibleFiles(files: seq<FileItem>, query: string): (r: seq<FileItem>)
    ensures query == "" ==> r == files
    ensures forall i :: 0 <= i < |r| ==> r[i] in files && (query != "" ==> NameMatches(r[i], query))
    ensures query != "" ==> forall i :: 0 <= i < |files| && NameMatches(files[i], query) ==> files[i] in r
  {
    if query != "" then Filter(files, MatchesQuery(query)) else files
  }

  function MatchesQuery(query: string): FileItem -> bool {
    (f: FileItem) => NameMatches(f, query)
  }

  /**
   * The search result is built file by file in list order: one more file is
   * listed exactly when the query is empty or its name matches.
   */
  lemma VisibleFilesStep(files: seq<FileItem>, f: FileItem, query: string)
    ensures VisibleFiles([], query) == []
    ensures VisibleFiles(files + [f], query) ==
      VisibleFiles(files, query) + (if query == "" || NameMatches(f, query) then [f] else [])
  {
    if query != "" {
      FilterSnoc(files, f, MatchesQuery(query));
    }
  }

  /** Searching is case-insensitive: a query and its lower-case form list the same files. */
  lemma SearchIgnoresCase(files: seq<FileItem>, query: string)
    requires query != ""
    ensures VisibleFiles(files, query) == VisibleFiles(files, Lower(query))
  {
    LowerIdempotent(query);
    assert Lower(query) != "";
    FilterCongruent(files, MatchesQuery(query), MatchesQuery(Lower(query)));
  }

  // -------------------------------------------------------------------------
  // Paths

  /** The display path of a chain of folder names opened from the root: "/A/B/". */
  function PathOf(names: seq<string>): string {
    "/" + Segments(names)
  }

  function Segments(names: seq<string>): string
    decreases |names|
  {
    if |names| == 0 then "" else names[0] + "/" + Segments(names[1..])
  }

  /** A folder name that can be a path segment: non-empty and free of '/'. */
  predicate SegmentName(n: string) {
    n != "" && '/' !in n
  }

  predicate NonEmpty(s: string) { s != "" }

  /**
   * The path the back button produces: split on '/', drop the empty parts,
   * drop the last part, and rebuild as "/" + parts joined by "/" + "/".
   */
  function BackPath(path: string): (r: string)
    ensures |r| >= 2 && r[0] == '/' && r[|r| - 1] == '/'
  {
    var parts := Filter(Split(path, '/'), NonEmpty);
    var kept := if |parts| > 0 then parts[..|parts| - 1] else parts;
    "/" + Join(kept, "/") + "/"
  }

  lemma {:induction false} SplitSegments(names: seq<string>)
    requires forall k :: 0 <= k < |names| ==> SegmentName(names[k])
    ensures Split(Segments(names), '/') == names + [""]
    decreases |names|
  {
    if |names| > 0 {
      SplitSegments(names[1..]);
      SplitAfter(names[0], '/', Segments(names[1..]));
      assert names[0] + "/" + Segments(names[1..]) == names[0] + ['/'] + Segments(names[1..]);
      assert names == [names[0]] + names[1..];
    }
  }

  lemma {:induction false} JoinSegments(names: seq<string>)
    requires |names| > 0
    ensures Join(names, "/") + "/" == Segments(names)
    decreases |names|
  {
    if |names| > 1 {
      JoinSegments(names[1..]);
    }
  }

  /**
   * Back from a path built by opening the folders `names` from the root goes
   * to the parent folder's path; back from a first-level folder goes to "//"
   * rather than to the root.
   */
  lemma {:induction false} BackFromFolder(names: seq<string>)
    requires |names| > 0
    requires forall k :: 0 <= k < |names| ==> SegmentName(names[k])
    ensures |names| > 1 ==> BackPath(PathOf(names)) == PathOf(names[..|names| - 1])
    ensures |names| == 1 ==> BackPath(PathOf(names)) == "//"
  {
    PathParts(names);
    if |names| > 1 {
      JoinSegments(names[..|names| - 1]);
    }
  }

  /** The non-empty parts of a path built from `names` are those names. */
  lemma PathParts(names: seq<string>)
    requires forall k :: 0 <= k < |names| ==> SegmentName(names[k])
    ensures Filter(Split(PathOf(names), '/'), NonEmpty) == names
  {
    SplitSegments(names);
    var path := PathOf(names);
    assert path == "" + ['/'] + Segments(names);
    SplitAfter("", '/', Segments(names));
    assert Split(path, '/') == [""] + (names + [""]);
    FilterAppend([""], names + [""], NonEmpty);
    FilterAppend(names, [""], NonEmpty);
    FilterKeepsAll(names, NonEmpty);
  }

  /** "//" is a fixed point of the back button. */
  lemma BackFromDoubleSlash()
    ensures BackPath("//") == "//"
  {
    assert Split("//", '/') == ["", "", ""] by {
      assert "//"[1..] == "/";
      assert "/"[1..] == "";
    }
    assert Filter(["", "", ""], NonEmpty) == [] by {
      assert ["", "", ""][1..] == ["", ""];
      assert ["", ""][1..] == [""];
      assert [""][1..] == [];
    }
  }

  // -------------------------------------------------------------------------
  // Deletion

  /** The list after deleting `id`: no record with that id stays, every other record stays, in order. */
  function WithoutId(files: seq<FileItem>, id: string): (r: seq<FileItem>)
    ensures forall i :: 0 <= i < |r| ==> r[i].id != id && r[i] in files
    ensures forall i :: 0 <= i < |files| && files[i].id != id ==> files[i] in r
    ensures (forall i :: 0 <= i < |files| ==> files[i].id != id) ==> r == files
  {
    var r := Filter(files, FileNotNamed(id));
    if forall i :: 0 <= i < |files| ==> files[i].id != id then
      FilterKeepsAll(files, FileNotNamed(id));
      r
    else r
  }

  function FileNotNamed(id: string): FileItem -> bool {
    (f: FileItem) => f.id != id
  }

  /** Deleting keeps the other records in order: one more record is kept exactly when its id differs. */
  lemma WithoutIdStep(files: seq<FileItem>, f: FileItem, id: string)
    ensures WithoutId([], id) == []
    ensures WithoutId(files + [f], id) == WithoutId(files, id) + (if f.id != id then [f] else [])
  {
    FilterSnoc(files, f, FileNotNamed(id));
  }

  // -------------------------------------------------------------------------
  // The component

  class FileManagerApp {
    var currentPath: string
    var selectedFile: Option<FileItem>
    var files: seq<FileItem>
    var searchQuery: string

    constructor ()
      ensures currentPath == RootPath && selectedFile == None
      ensures files == [] && searchQuery == ""
    {
      currentPath := RootPath;
      selectedFile := None;
      files := [];
      searchQuery := "";
    }

    /**
     * The mount effect: stored files are loaded; a missing or unreadable
     * entry gives the default file system, which is written back at once.
     */
    method Load(stored: StoredFiles, today: string) returns (written: Option<seq<FileItem>>)
      modifies this
      ensures stored.Saved? ==> files == stored.files && written == None
      ensures !stored.Saved? ==> files == DefaultFiles(today) && written == Some(files)
      ensures currentPath == old(currentPath) && selectedFile == old(selectedFile)
      ensures searchQuery == old(searchQuery)
    {
      match stored {
        case Saved(saved) =>
          files := saved;
          written := None;
        case _ =>
          files := DefaultFiles(today);
          written := Some(files);
      }
    }

    /** The save effect, run whenever the list changes. */
    method Persist() returns (written: Option<seq<FileItem>>)
      ensures written == WrittenList(files)
    {
      if |files| > 0 {
        written := Some(files);
      } else {
        written := None;
      }
    }

    /** The files the list shows. */
    function View(): seq<FileItem>
      reads this
    {
      VisibleFiles(files, searchQuery)
    }

    /** Clicking a folder opens it; clicking anything else selects it. */
    method FileClick(file: FileItem)
      modifies this
      ensures file.kind == Folder ==>
        currentPath == old(currentPath) + file.name + "/" && selectedFile == old(selectedFile)
      ensures file.kind != Folder ==>
        selectedFile == Some(file) && currentPath == old(currentPath)
      ensures files == old(files) && searchQuery == old(searchQuery)
    {
      if file.kind == Folder {
        currentPath := currentPath + file.name + "/";
      } else {
        selectedFile := Some(file);
      }
    }

    /** The back button: nothing at the root, otherwise the path loses its last segment. */
    method Back()
      modifies this
      ensures old(currentPath) == RootPath ==> currentPath == RootPath
      ensures old(currentPath) != RootPath ==> currentPath == BackPath(old(currentPath))
      ensures files == old(files) && selectedFile == old(selectedFile) && searchQuery == old(searchQuery)
    {
      if currentPath == RootPath {
        return;
      }
      var parts := Filter(Split(currentPath, '/'), NonEmpty);
      if |parts| > 0 {
        parts := parts[..|parts| - 1];
      }
      currentPath := "/" + Join(parts, "/") + "/";
    }

    /** The home button. */
    method Home()
      modifies this
      ensures currentPath == RootPath
      ensures files == old(files) && selectedFile == old(selectedFile) && searchQuery == old(searchQuery)
    {
      currentPath := RootPath;
    }

    /** Upload: a cancelled or empty name changes nothing; otherwise one typed record is appended. */
    method Upload(answer: Option<string>, id: string, today: string)
      modifies this
      ensures !Truthy(answer) ==> files == old(files)
      ensures Truthy(answer) ==> files == old(files) + [UploadedFile(answer.value, id, today)]
      ensures currentPath == old(currentPath) && selectedFile == old(selectedFile)
      ensures searchQuery == old(searchQuery)
    {
      if !Truthy(answer) {
        return;
      }
      var name := answer.value;
      var fileType := TypeFromName(name);
      var newFile := FileItem(id, name, fileType, today,
        if fileType == Document then Some(UploadedDocumentText) else None,
        if fileType == Image then Some(UploadedImagePreview) else None);
      files := files + [newFile];
    }

    /** New folder: a cancelled or empty name changes nothing; otherwise one folder is appended. */
    method NewFolder(answer: Option<string>, id: string, today: string)
      modifies this
      ensures !Truthy(answer) ==> files == old(files)
      ensures Truthy(answer) ==> files == old(files) + [FileItem(id, answer.value, Folder, today, None, None)]
      ensures currentPath == old(currentPath) && selectedFile == old(selectedFile)
      ensures searchQuery == old(searchQuery)
    {
      if !Truthy(answer) {
        return;
      }
      files := files + [FileItem(id, answer.value, Folder, today, None, None)];
    }

    /**
     * Confirmed delete: every record with that id goes, the others stay in
     * order, and the preview closes only if it showed that id.
     */
    method DeleteFile(id: string, confirmed: bool)
      modifies this
      ensures !confirmed ==> files == old(files) && selectedFile == old(selectedFile)
      ensures confirmed ==> files == WithoutId(old(files), id)
      ensures confirmed && old(selectedFile).Some? && old(selectedFile).value.id == id ==> selectedFile == None
      ensures !(old(selectedFile).Some? && old(selectedFile).value.id == id) ==> selectedFile == old(selectedFile)
      ensures currentPath == old(currentPath) && searchQuery == old(searchQuery)
    {
      if confirmed {
        files := WithoutId(files, id);
        if selectedFile.Some? && selectedFile.value.id == id {
          selectedFile := None;
        }
      }
    }
  }

}
