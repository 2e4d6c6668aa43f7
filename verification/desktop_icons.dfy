/**
 * The desktop icon layer (assets/components/DesktopFiles.tsx): the files
 * pinned to the desktop, one stored position per pinned file, a five-column
 * grid for newly pinned files, and dragging an icon with the mouse.
 *
 * Local storage reads are `Option` parameters (`None` for a missing or
 * unparsable entry), and the writes are returned as values.
 */
module DesktopIcons {
  import opened Wrappers
  import opened Seqs
  import opened FileManager

  datatype IconPosition = IconPosition(id: string, x: int, y: int)

  const GridColumns := 5
  const GridLeft := 20
  const GridTop := 40
  const GridPitch := 100
  const WelcomeFileName := "XenzOS_Welcome.txt"

  /**
   * The grid slot of the `n`-th pinned file: five per row, 100 pixels apart.
   * The slot lies on the grid, in one of its five columns, and its cell
   * gives back `n`.
   */
  function Slot(id: string, n: nat): (p: IconPosition)
    ensures p.id == id
    ensures GridLeft <= p.x < GridLeft + GridColumns * GridPitch && GridTop <= p.y
    ensures (p.x - GridLeft) % GridPitch == 0 && (p.y - GridTop) % GridPitch == 0
    ensures ((p.y - GridTop) / GridPitch) * GridColumns + (p.x - GridLeft) / GridPitch == n
  {
    var col, row := n % GridColumns, n / GridColumns;
    assert (col * GridPitch) / GridPitch == col && (col * GridPitch) % GridPitch == 0;
    assert (row * GridPitch) / GridPitch == row && (row * GridPitch) % GridPitch == 0;
    IconPosition(id, GridLeft + col * GridPitch, GridTop + row * GridPitch)
  }

  /** Two different slot numbers never share a grid cell. */
  lemma SlotsDistinct(n: nat, m: nat, a: string, b: string)
    requires n != m
    ensures Slot(a, n).x != Slot(b, m).x || Slot(a, n).y != Slot(b, m).y
  {
  }

  /** The sixth pinned file starts the second row. */
  lemma SixthSlot(id: string)
    ensures Slot(id, 5) == IconPosition(id, 20, 140)
  {
  }

  /** Every position gets the new coordinates when its id is `id`, and keeps its own otherwise. */
  function MovedTo(positions: seq<IconPosition>, id: string, x: int, y: int): (r: seq<IconPosition>)
    ensures |r| == |positions|
    ensures forall i :: 0 <= i < |r| ==> r[i].id == positions[i].id
    ensures forall i :: 0 <= i < |r| && positions[i].id == id ==> r[i].x == x && r[i].y == y
    ensures forall i :: 0 <= i < |r| && positions[i].id != id ==> r[i] == positions[i]
  {
    seq(|positions|, i requires 0 <= i < |positions| =>
      if positions[i].id == id then IconPosition(positions[i].id, x, y) else positions[i])
  }

  /** A pinned-files list with one matching position per file, in the same order, and no id twice. */
  predicate Paired(pinned: seq<FileItem>, positions: seq<IconPosition>) {
    && |positions| == |pinned|
    && (forall i :: 0 <= i < |pinned| ==> positions[i].id == pinned[i].id)
    && (forall i, j :: 0 <= i < j < |pinned| ==> pinned[i].id != pinned[j].id)
  }

  /** Every position still sits in the grid slot of its index (no icon has been dragged). */
  predicate OnGrid(positions: seq<IconPosition>) {
    forall i :: 0 <= i < |positions| ==> positions[i] == Slot(positions[i].id, i)
  }

  /** Icons laid out by the grid never overlap. */
  lemma OnGridApart(positions: seq<IconPosition>, i: nat, j: nat)
    requires OnGrid(positions)
    requires i < j < |positions|
    ensures positions[i].x != positions[j].x || positions[i].y != positions[j].y
  {
    SlotsDistinct(i, j, positions[i].id, positions[j].id);
  }

  /** The stored position of an icon, as `positions.find(pos => pos.id === id)`. */
  function PositionOf(positions: seq<IconPosition>, id: string): (r: Option<IconPosition>)
    ensures r.Some? ==> r.value in positions && r.value.id == id
    ensures r.None? <==> forall i :: 0 <= i < |positions| ==> positions[i].id != id
  {
    Find(positions, (p: IconPosition) => p.id == id)
  }

  predicate IsPinned(pinned: seq<FileItem>, id: string) {
    Any(pinned, (f: FileItem) => f.id == id)
  }

  predicate IsWelcome(f: FileItem) { f.name == WelcomeFileName }
  predicate IsImage(f: FileItem) { f.kind == Image }

  /** What the save effect writes: each list only when it is non-empty. */
  function Persisted(pinned: seq<FileItem>, positions: seq<IconPosition>): (w: (Option<seq<FileItem>>, Option<seq<IconPosition>>))
    ensures w.0.Some? <==> |pinned| > 0
    ensures w.1.Some? <==> |positions| > 0
    ensures w.0.Some? ==> w.0.value == pinned
    ensures w.1.Some? ==> w.1.value == positions
  {
    (WrittenList(pinned), WrittenList(positions))
  }

  /** The pinned files together with their positions. */
  datatype Layer = Layer(pinned: seq<FileItem>, positions: seq<IconPosition>)

  /**
   * Pinning a file: nothing changes when a file with its id is already pinned;
   * otherwise the file is appended and gets the grid slot numbered by how many
   * positions exist.
   */
  function Added(l: Layer, file: FileItem): (r: Layer)
    ensures IsPinned(l.pinned, file.id) ==> r == l
    ensures !IsPinned(l.pinned, file.id) ==> r.pinned == l.pinned + [file]
    ensures !IsPinned(l.pinned, file.id) ==> r.positions == l.positions + [Slot(file.id, |l.positions|)]
    ensures IsPinned(r.pinned, file.id)
  {
    if IsPinned(l.pinned, file.id) then l
    else
      var r := Layer(l.pinned + [file], l.positions + [Slot(file.id, |l.positions|)]);
      assert r.pinned[|r.pinned| - 1].id == file.id;
      r
  }

  /** Pinning keeps each file paired with its own position and no id twice. */
  lemma AddedKeepsPaired(l: Layer, file: FileItem)
    requires Paired(l.pinned, l.positions)
    ensures Paired(Added(l, file).pinned, Added(l, file).positions)
  {
    if !IsPinned(l.pinned, file.id) {
      var r := Added(l, file);
      forall i | 0 <= i < |r.pinned| ensures r.positions[i].id == r.pinned[i].id {
        if i == |l.pinned| {
          assert r.positions[i] == Slot(file.id, |l.positions|);
        }
      }
    }
  }

  /** Pinning keeps a grid layout a grid layout, so freshly pinned icons never overlap. */
  lemma AddedKeepsOnGrid(l: Layer, file: FileItem)
    requires OnGrid(l.positions)
    ensures OnGrid(Added(l, file).positions)
  {
    if !IsPinned(l.pinned, file.id) {
      var r := Added(l, file);
      forall i | 0 <= i < |r.positions| ensures r.positions[i] == Slot(r.positions[i].id, i) {
        if i < |l.positions| {
          assert r.positions[i] == l.positions[i];
        }
      }
    }
  }

  /** Whether the seeding effect runs: files are known and nothing is pinned yet. */
  predicate SeedRuns(files: seq<FileItem>, l: Layer) {
    |files| > 0 && |l.pinned| == 0
  }

  /**
   * The seeding effect as the component runs it: both pin requests are
   * computed from the same snapshot of the layer, so the image request
   * replaces the welcome-file request.
   */
  function SeededAsWritten(files: seq<FileItem>, l: Layer): (r: Layer)
    ensures !SeedRuns(files, l) ==> r == l
  {
    if !SeedRuns(files, l) then l
    else
      var welcome := Find(files, IsWelcome);
      var image := Find(files, IsImage);
      if image.Some? then Added(l, image.value)
      else if welcome.Some? then Added(l, welcome.value)
      else l
  }

  /** The seeding effect as intended: the welcome file, then the first image, each pinned in turn. */
  function Seeded(files: seq<FileItem>, l: Layer): (r: Layer)
    ensures !SeedRuns(files, l) ==> r == l
  {
    if !SeedRuns(files, l) then l
    else
      var welcome := Find(files, IsWelcome);
      var image := Find(files, IsImage);
      var afterWelcome := if welcome.Some? then Added(l, welcome.value) else l;
      if image.Some? then Added(afterWelcome, image.value) else afterWelcome
  }

  /**
   * With a welcome file that is not an image and an image among the files,
   * the seeding as written leaves the welcome file off the desktop.
   */
  lemma SeedAsWrittenDropsWelcome(welcome: FileItem, image: FileItem)
    requires welcome.name == WelcomeFileName && welcome.kind != Image && image.kind == Image
    ensures welcome !in SeededAsWritten([welcome, image], Layer([], [])).pinned
  {
    var files := [welcome, image];
    assert !IsImage(files[0]) && IsImage(files[1]);
    assert Find(files, IsImage) == Some(image);
    assert SeededAsWritten(files, Layer([], [])).pinned == [image];
  }

  /**
   * The intended seeding pins the welcome file and (by id) the first image,
   * keeps the layer paired and on the grid, and pins nothing when neither exists.
   */
  lemma SeedPinsBoth(files: seq<FileItem>, l: Layer)
    requires SeedRuns(files, l) && Paired(l.pinned, l.positions) && OnGrid(l.positions)
    ensures var r := Seeded(files, l);
      && (Find(files, IsWelcome).Some? ==> Find(files, IsWelcome).value in r.pinned)
      && (Find(files, IsImage).Some? ==> IsPinned(r.pinned, Find(files, IsImage).value.id))
      && (Find(files, IsWelcome).None? && Find(files, IsImage).None? ==> r.pinned == [])
      && Paired(r.pinned, r.positions) && OnGrid(r.positions)
  {
    var welcome := Find(files, IsWelcome);
    var image := Find(files, IsImage);
    var afterWelcome := if welcome.Some? then Added(l, welcome.value) else l;
    if welcome.Some? {
      AddedKeepsPaired(l, welcome.value);
      AddedKeepsOnGrid(l, welcome.value);
      assert afterWelcome.pinned == [welcome.value];
    }
    if image.Some? {
      AddedKeepsPaired(afterWelcome, image.value);
      AddedKeepsOnGrid(afterWelcome, image.value);
      if welcome.Some? {
        assert afterWelcome.pinned[0] == welcome.value;
        if !IsPinned(afterWelcome.pinned, image.value.id) {
          assert Added(afterWelcome, image.value).pinned[0] == welcome.value;
        }
      }
    }
  }

  /**
   * When the welcome file comes before the first image and is not itself an
   * image, the intended seeding of an empty desktop pins the two in that
   * order, while the seeding as written pins only the image.
   */
  lemma SeedWelcomeThenImage(files: seq<FileItem>, w: nat, m: nat)
    requires w < m < |files| && files[w].id != files[m].id
    requires IsWelcome(files[w]) && IsImage(files[m])
    requires forall j :: 0 <= j < w ==> !IsWelcome(files[j])
    requires forall j :: 0 <= j < m ==> !IsImage(files[j])
    ensures Seeded(files, Layer([], [])).pinned == [files[w], files[m]]
    ensures SeededAsWritten(files, Layer([], [])).pinned == [files[m]]
  {
    FindFirst(files, IsWelcome, w);
    FindFirst(files, IsImage, m);
  }

  /**
   * On the default file system of a first visit the intended seeding pins
   * the welcome document and the sample image in that order, while the
   * seeding as written pins only the image.
   */
  lemma DefaultFilesSeed(today: string)
    ensures var d := DefaultFiles(today);
      && Seeded(d, Layer([], [])).pinned == [d[4], d[5]]
      && SeededAsWritten(d, Layer([], [])).pinned == [d[5]]
  {
    var d := DefaultFiles(today);
    assert forall j :: 0 <= j < 4 ==> !IsWelcome(d[j]) by {
      forall j | 0 <= j < 4 ensures d[j].name != d[4].name { }
    }
    SeedWelcomeThenImage(d, 4, 5);
  }

  class DesktopFiles {
    var files: seq<FileItem>
    var pinned: seq<FileItem>
    var positions: seq<IconPosition>
    var draggingFile: Option<string>
    var dragOffsetX: int
    var dragOffsetY: int

    ghost predicate Consistent()
      reads this
    {
      Paired(pinned, positions)
    }

    constructor ()
      ensures files == [] && pinned == [] && positions == []
      ensures draggingFile == None && dragOffsetX == 0 && dragOffsetY == 0
      ensures Consistent() && OnGrid(positions)
    {
      files := [];
      pinned := [];
      positions := [];
      draggingFile := None;
      dragOffsetX := 0;
      dragOffsetY := 0;
    }

    /** The mount effect: each stored list that is present replaces the one in memory. */
    method Load(savedFiles: Option<seq<FileItem>>, savedPinned: Option<seq<FileItem>>,
                savedPositions: Option<seq<IconPosition>>)
      modifies this
      ensures files == (if savedFiles.Some? then savedFiles.value else old(files))
      ensures pinned == (if savedPinned.Some? then savedPinned.value else old(pinned))
      ensures positions == (if savedPositions.Some? then savedPositions.value else old(positions))
      ensures draggingFile == old(draggingFile)
      ensures dragOffsetX == old(dragOffsetX) && dragOffsetY == old(dragOffsetY)
    {
      if savedFiles.Some? {
        files := savedFiles.value;
      }
      if savedPinned.Some? {
        pinned := savedPinned.value;
      }
      if savedPositions.Some? {
        positions := savedPositions.value;
      }
    }

    /** Pins a file (see `Added`); pairing and the grid layout are both kept. */
    method AddFile(file: FileItem)
      modifies this
      ensures Layer(pinned, positions) == Added(Layer(old(pinned), old(positions)), file)
      ensures old(Consistent()) ==> Consistent()
      ensures old(OnGrid(positions)) ==> OnGrid(positions)
      ensures files == old(files) && draggingFile == old(draggingFile)
      ensures dragOffsetX == old(dragOffsetX) && dragOffsetY == old(dragOffsetY)
    {
      if Paired(pinned, positions) {
        AddedKeepsPaired(Layer(pinned, positions), file);
      }
      if OnGrid(positions) {
        AddedKeepsOnGrid(Layer(pinned, positions), file);
      }
      if !IsPinned(pinned, file.id) {
        pinned := pinned + [file];
        var n := |positions|;
        positions := positions + [IconPosition(file.id, GridLeft + (n % GridColumns) * GridPitch,
                                               GridTop + (n / GridColumns) * GridPitch)];
      }
    }

    /** Pressing on an icon starts dragging it, remembering the pointer's offset from its corner. */
    method MouseDown(fileId: string, clientX: int, clientY: int)
      modifies this
      ensures draggingFile == Some(fileId)
      ensures PositionOf(positions, fileId).Some? ==>
        var p := PositionOf(positions, fileId).value;
        dragOffsetX == clientX - p.x && dragOffsetY == clientY - p.y
      ensures PositionOf(positions, fileId).None? ==>
        dragOffsetX == old(dragOffsetX) && dragOffsetY == old(dragOffsetY)
      ensures files == old(files) && pinned == old(pinned) && positions == old(positions)
    {
      draggingFile := Some(fileId);
      var found := PositionOf(positions, fileId);
      if found.Some? {
        dragOffsetX := clientX - found.value.x;
        dragOffsetY := clientY - found.value.y;
      }
    }

    /** While an icon is dragged, its position follows the pointer minus the offset. */
    method MouseMove(clientX: int, clientY: int)
      modifies this
      ensures Truthy(draggingFile) ==>
        positions == MovedTo(old(positions), draggingFile.value, clientX - dragOffsetX, clientY - dragOffsetY)
      ensures !Truthy(draggingFile) ==> positions == old(positions)
      ensures old(Consistent()) ==> Consistent()
      ensures files == old(files) && pinned == old(pinned) && draggingFile == old(draggingFile)
      ensures dragOffsetX == old(dragOffsetX) && dragOffsetY == old(dragOffsetY)
    {
      if Truthy(draggingFile) {
        positions := MovedTo(positions, draggingFile.value, clientX - dragOffsetX, clientY - dragOffsetY);
      }
    }

    /**
     * The pointer-move listener as the component registers it: the press
     * attaches the handler of the render it happened in, so the handler sees
     * that render's dragged id and offset (`seenDragging`, `seenOffsetX`,
     * `seenOffsetY`) rather than the current ones.
     */
    method ListenerMouseMove(seenDragging: Option<string>, seenOffsetX: int, seenOffsetY: int, clientX: int, clientY: int)
      modifies this
      ensures Truthy(seenDragging) ==>
        positions == MovedTo(old(positions), seenDragging.value, clientX - seenOffsetX, clientY - seenOffsetY)
      ensures !Truthy(seenDragging) ==> positions == old(positions)
      ensures files == old(files) && pinned == old(pinned) && draggingFile == old(draggingFile)
      ensures dragOffsetX == old(dragOffsetX) && dragOffsetY == old(dragOffsetY)
    {
      if Truthy(seenDragging) {
        positions := MovedTo(positions, seenDragging.value, clientX - seenOffsetX, clientY - seenOffsetY);
      }
    }

    method MouseUp()
      modifies this
      ensures draggingFile == None
      ensures files == old(files) && pinned == old(pinned) && positions == old(positions)
      ensures dragOffsetX == old(dragOffsetX) && dragOffsetY == old(dragOffsetY)
    {
      draggingFile := None;
    }

    /** The seeding effect, pinning the welcome file and then the first image. */
    method Seed()
      modifies this
      ensures Layer(pinned, positions) == Seeded(files, Layer(old(pinned), old(positions)))
      ensures old(Consistent()) ==> Consistent()
      ensures old(OnGrid(positions)) ==> OnGrid(positions)
      ensures files == old(files) && draggingFile == old(draggingFile)
      ensures dragOffsetX == old(dragOffsetX) && dragOffsetY == old(dragOffsetY)
    {
      if |files| > 0 && |pinned| == 0 {
        var welcome := Find(files, IsWelcome);
        if welcome.Some? {
          AddFile(welcome.value);
        }
        var image := Find(files, IsImage);
        if image.Some? {
          AddFile(image.value);
        }
      }
    }
  }

  /**
   * A drag gesture as the component runs it, starting from an idle layer:
   * the listener the press registers belongs to the render before the press,
   * in which nothing was being dragged, so no icon moves.
   */
  method DragAsWritten(d: DesktopFiles, fileId: string, pressX: int, pressY: int, moveX: int, moveY: int)
    requires d.draggingFile == None
    modifies d
    ensures d.positions == old(d.positions) && d.draggingFile == None
  {
    var seenDragging, seenOffsetX, seenOffsetY := d.draggingFile, d.dragOffsetX, d.dragOffsetY;
    d.MouseDown(fileId, pressX, pressY);
    d.ListenerMouseMove(seenDragging, seenOffsetX, seenOffsetY, moveX, moveY);
    d.MouseUp();
  }

  /**
   * A drag gesture with a listener that reads the current state: pressing on
   * a placed icon and moving the pointer moves that icon by the pointer's
   * travel and leaves every other icon where it was (an empty id is falsy,
   * so such an icon never moves).
   */
  method DragMovesIcon(d: DesktopFiles, fileId: string, pressX: int, pressY: int, moveX: int, moveY: int)
    requires PositionOf(d.positions, fileId).Some?
    modifies d
    ensures var p := PositionOf(old(d.positions), fileId).value;
      fileId != "" ==> d.positions == MovedTo(old(d.positions), fileId, p.x + moveX - pressX, p.y + moveY - pressY)
    ensures fileId == "" ==> d.positions == old(d.positions)
    ensures old(d.Consistent()) ==> d.Consistent()
    ensures d.draggingFile == None
  {
    d.MouseDown(fileId, pressX, pressY);
    d.MouseMove(moveX, moveY);
    d.MouseUp();
  }
}
