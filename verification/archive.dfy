/** Archives and the directory trees they are extracted to: the zip and tar extractors and the
    handler that streams a version directory as a zip. An archive is a sequence of entries; its
    bytes on the wire are not part of this model. */
module Archive {
  import opened Numerals
  import opened Paths
  import opened Wrappers

  type Bytes = string

  datatype Kind = Regular | Directory | Symlink | Hardlink | Special

  datatype Entry = Entry(name: string, kind: Kind, contents: Bytes)

  datatype Format = Zip | Tar

  datatype Archive = Archive(format: Format, entries: seq<Entry>)

  /** A directory's contents, by path relative to it. */
  datatype Tree = Tree(dirs: set<Path>, files: map<Path, Bytes>)

  const EMPTY_TREE := Tree({}, map[])

  datatype FsError = NotADirectory | IsADirectory

  /** p and every directory above it, without the root. */
  function Above(p: Path): set<Path> {
    set i | 0 < i <= |p| :: p[..i]
  }

  function Parent(p: Path): Path
    requires |p| > 0
  {
    p[..|p| - 1]
  }

  /** os.MkdirAll */
  function MkdirAll(t: Tree, p: Path): Result<Tree, FsError> {
    if exists q | q in Above(p) :: q in t.files then Err(NotADirectory)
    else Ok(t.(dirs := t.dirs + Above(p)))
  }

  /** os.OpenFile with O_CREATE|O_TRUNC, then a copy */
  function WriteFile(t: Tree, p: Path, contents: Bytes): Result<Tree, FsError> {
    if p in t.dirs then Err(IsADirectory) else Ok(t.(files := t.files[p := contents]))
  }

  function PlaceFile(t: Tree, p: Path, contents: Bytes): Result<Tree, FsError>
    requires |p| > 0
  {
    match MkdirAll(t, Parent(p))
    case Err(e) => Err(e)
    case Ok(t') => WriteFile(t', p, contents)
  }

  /** Where an entry goes below the staging directory dest, or None if it is skipped. */
  function TargetBelow(dest: Path, name: string): (p: Option<Path>)
    ensures p.Some? ==> |p.value| > 0
  {
    match ResolveTarget(dest, name)
    case None => None
    case Some(target) =>
      TargetIsBelowDest(dest, name);
      Some(target[|dest|..])
  }

  /** One turn of extractZip's loop. A zip entry is a directory if its mode says so or its name
      ends in a slash. */
  function ZipStep(dest: Path, t: Tree, e: Entry): Result<Tree, FsError> {
    if e.kind == Symlink || HasDotDot(e.name) then Ok(t)
    else
      match TargetBelow(dest, e.name)
      case None => Ok(t)
      case Some(p) =>
        if e.kind == Directory || IsDirName(e.name) then MkdirAll(t, p) else PlaceFile(t, p, e.contents)
  }

  /** A tar directory may lack the trailing slash that the name check relies on; it is added. */
  function TarName(e: Entry): string {
    if e.kind == Directory && !IsDirName(e.name) then e.name + "/" else e.name
  }

  /** extractTarEntry, behind the caller's parent-traversal test */
  function TarStep(dest: Path, t: Tree, e: Entry): Result<Tree, FsError> {
    if HasDotDot(e.name) || e.kind == Symlink || e.kind == Hardlink then Ok(t)
    else
      match TargetBelow(dest, TarName(e))
      case None => Ok(t)
      case Some(p) =>
        if e.kind == Directory then MkdirAll(t, p)
        else if e.kind != Regular then Ok(t)
        else PlaceFile(t, p, e.contents)
  }

  function Step(format: Format, dest: Path, t: Tree, e: Entry): Result<Tree, FsError> {
    match format
    case Zip => ZipStep(dest, t, e)
    case Tar => TarStep(dest, t, e)
  }

  /** What ExtractArchive leaves in the staging directory, or the error that makes it remove it. */
  function Extract(format: Format, dest: Path, entries: seq<Entry>): Result<Tree, FsError> {
    if entries == [] then Ok(EMPTY_TREE)
    else
      match Extract(format, dest, entries[..|entries| - 1])
      case Err(e) => Err(e)
      case Ok(t) => Step(format, dest, t, entries[|entries| - 1])
  }

  /** The extraction loop over a staging directory that starts out empty. */
  method ExtractInto(format: Format, dest: Path, entries: seq<Entry>) returns (r: Result<Tree, FsError>)
    ensures r == Extract(format, dest, entries)
  {
    var tree := EMPTY_TREE;
    for i := 0 to |entries|
      invariant Extract(format, dest, entries[..i]) == Ok(tree)
      invariant forall j | 0 <= j < i :: Extract(format, dest, entries[..j]).Ok?
    {
      assert entries[..i + 1][..i] == entries[..i];
      var next := Step(format, dest, tree, entries[i]);
      if next.Err? {
        FailureSticks(format, dest, entries, i + 1);
        return next;
      }
      tree := next.value;
    }
    assert entries[..|entries|] == entries;
    return Ok(tree);
  }

  lemma {:induction false} FailureSticks(format: Format, dest: Path, entries: seq<Entry>, i: nat)
    requires i <= |entries| && Extract(format, dest, entries[..i]).Err?
    ensures Extract(format, dest, entries) == Extract(format, dest, entries[..i])
  {
    if i == |entries| {
      assert entries[..i] == entries;
    } else {
      var shorter := entries[..|entries| - 1];
      assert shorter[..i] == entries[..i];
      FailureSticks(format, dest, shorter, i);
    }
  }

  // ----- What extraction means: an independent description of the resulting tree -----

  datatype Slot = DirAt(dir: Path) | FileAt(file: Path)

  function EntryName(format: Format, e: Entry): string {
    if format == Tar then TarName(e) else e.name
  }

  /** The kinds an extractor acts on: zip has no notion of a special file and copies its bytes. */
  predicate Considered(format: Format, e: Entry) {
    if format == Zip then e.kind != Symlink else e.kind == Regular || e.kind == Directory
  }

  /** Tar goes by the header's type alone, zip also by a trailing slash. */
  predicate IsDirEntry(format: Format, e: Entry) {
    e.kind == Directory || (format == Zip && IsDirName(e.name))
  }

  /** The place an entry asks for, or None if the entry is skipped. */
  function Accepted(format: Format, e: Entry): Option<Slot> {
    var name := EntryName(format, e);
    if HasDotDot(e.name) || !Considered(format, e) || !ValidEntryName(name) then None
    else if IsDirEntry(format, e) then Some(DirAt(Segments(name)))
    else Some(FileAt(Segments(name)))
  }

  /** The entry's kind agrees with the trailing slash of its name. */
  predicate Matched(format: Format, e: Entry) {
    Considered(format, e) ==> (e.kind == Directory <==> IsDirName(EntryName(format, e)))
  }

  /** The directories an accepted entry makes. */
  function DirsOf(slot: Slot): set<Path> {
    match slot
    case DirAt(p) => Above(p)
    case FileAt(p) => if |p| > 0 then Above(Parent(p)) else {}
  }

  /** An entry seen as a request to the file system. */
  datatype Write = Write(slot: Option<Slot>, contents: Bytes)

  function Writes(format: Format, entries: seq<Entry>): (ws: seq<Write>)
    ensures |ws| == |entries|
    ensures forall i | 0 <= i < |entries| :: ws[i] == Write(Accepted(format, entries[i]), entries[i].contents)
  {
    seq(|entries|, i requires 0 <= i < |entries| => Write(Accepted(format, entries[i]), entries[i].contents))
  }

  ghost predicate WritesFile(ws: seq<Write>, p: Path) {
    exists i :: 0 <= i < |ws| && ws[i].slot == Some(FileAt(p))
  }

  ghost predicate MakesDir(ws: seq<Write>, q: Path) {
    exists i :: 0 <= i < |ws| && ws[i].slot.Some? && q in DirsOf(ws[i].slot.value)
  }

  ghost predicate LastWriter(ws: seq<Write>, p: Path, i: int) {
    && 0 <= i < |ws|
    && ws[i].slot == Some(FileAt(p))
    && forall j | i < j < |ws| :: ws[j].slot != Some(FileAt(p))
  }

  /** t is the last-writer-wins tree of the accepted entries and holds nothing else. */
  ghost predicate IsLastWriterTree(ws: seq<Write>, t: Tree) {
    && (forall p :: p in t.files <==> WritesFile(ws, p))
    && (forall p, i :: LastWriter(ws, p, i) && p in t.files ==> t.files[p] == ws[i].contents)
    && (forall q :: q in t.dirs <==> MakesDir(ws, q))
  }

  /** Directories have numeric names only and files are numeric tiles, so no path is both. */
  ghost predicate Tidy(t: Tree) {
    && (forall q | q in t.dirs :: |q| > 0 && AllNumeric(q))
    && (forall p | p in t.files :: IsTilePath(p))
    && (forall p | p in t.files :: Above(Parent(p)) <= t.dirs)
  }

  lemma NumericIsNoTile(p: Path)
    requires IsTilePath(p)
    ensures !AllNumeric(p)
  {
    var last := p[|p| - 1];
    assert last[|last| - 4..][0] == '.';
    assert last in p && last[|last| - 4] == '.';
  }

  lemma PrefixesAreNumeric(p: Path)
    requires AllNumeric(p)
    ensures forall q | q in Above(p) :: |q| > 0 && AllNumeric(q)
  {
  }

  function Placed(t: Tree, slot: Option<Slot>, contents: Bytes): Tree {
    match slot
    case None => t
    case Some(DirAt(p)) => t.(dirs := t.dirs + Above(p))
    case Some(FileAt(p)) => Tree(t.dirs + DirsOf(FileAt(p)), t.files[p := contents])
  }

  /** Nothing in the tree stands in the slot's way: no file where it needs a directory, and no directory
      where it needs a file. */
  predicate HasRoom(t: Tree, slot: Option<Slot>) {
    slot.Some? ==>
      && (forall q | q in DirsOf(slot.value) :: q !in t.files)
      && (slot.value.FileAt? ==> slot.value.file !in t.dirs)
  }

  /** An entry is placed exactly if there is room for it; otherwise extraction fails. */
  lemma StepSucceedsIff(format: Format, dest: Path, t: Tree, e: Entry)
    ensures var slot := Accepted(format, e);
            Step(format, dest, t, e).Ok? <==> HasRoom(t, slot)
    ensures Step(format, dest, t, e).Ok? ==> Step(format, dest, t, e).value == Placed(t, Accepted(format, e), e.contents)
  {
    var name := EntryName(format, e);
    TargetIsBelowDest(dest, name);
    if Accepted(format, e).Some? {
      var p := Segments(name);
      assert (dest + p)[|dest|..] == p;
      assert p !in Above(Parent(p));
    }
  }

  /** Some path is asked for both as a file and as a directory. */
  ghost predicate Conflict(ws: seq<Write>) {
    exists p :: WritesFile(ws, p) && MakesDir(ws, p)
  }

  lemma OneMoreWrite(before: seq<Write>, w: Write, p: Path)
    ensures WritesFile(before + [w], p) <==> WritesFile(before, p) || w.slot == Some(FileAt(p))
    ensures MakesDir(before + [w], p) <==> MakesDir(before, p) || (w.slot.Some? && p in DirsOf(w.slot.value))
  {
    var ws, n := before + [w], |before|;
    assert ws[n] == w && forall i | 0 <= i < n :: ws[i] == before[i];
    if WritesFile(before, p) {
      var i :| 0 <= i < n && before[i].slot == Some(FileAt(p));
      assert ws[i].slot == Some(FileAt(p));
    }
    if MakesDir(before, p) {
      var i :| 0 <= i < n && before[i].slot.Some? && p in DirsOf(before[i].slot.value);
      assert p in DirsOf(ws[i].slot.value);
    }
  }

  /** A further write brings a first conflict exactly if there is no room for it. */
  lemma ConflictIffNoRoom(before: seq<Write>, t: Tree, w: Write)
    requires IsLastWriterTree(before, t) && !Conflict(before)
    ensures Conflict(before + [w]) <==> !HasRoom(t, w.slot)
  {
    forall p ensures WritesFile(before + [w], p) <==> p in t.files || w.slot == Some(FileAt(p))
             ensures MakesDir(before + [w], p) <==> p in t.dirs || (w.slot.Some? && p in DirsOf(w.slot.value))
    {
      OneMoreWrite(before, w, p);
    }
    assert forall p | w.slot == Some(FileAt(p)) :: p !in DirsOf(FileAt(p));
    hide IsLastWriterTree;
    if !HasRoom(t, w.slot) {
      var p :| (p in DirsOf(w.slot.value) && p in t.files) || (w.slot == Some(FileAt(p)) && p in t.dirs);
      assert WritesFile(before + [w], p) && MakesDir(before + [w], p);
    }
    if Conflict(before + [w]) {
      var p :| WritesFile(before + [w], p) && MakesDir(before + [w], p);
      assert !(p in t.files && p in t.dirs) by { NoConflictInTree(before, t, p); }
    }
  }

  lemma NoConflictInTree(before: seq<Write>, t: Tree, p: Path)
    requires IsLastWriterTree(before, t) && !Conflict(before)
    ensures !(p in t.files && p in t.dirs)
  {
  }

  lemma ConflictStays(before: seq<Write>, w: Write)
    requires Conflict(before)
    ensures Conflict(before + [w])
  {
    var p :| WritesFile(before, p) && MakesDir(before, p);
    OneMoreWrite(before, w, p);
  }

  /** Extraction succeeds if and only if no path is asked for both as a file and as a directory, in
      whatever order, and then yields exactly the last-writer-wins tree. */
  lemma {:induction false} ExtractionSucceedsIff(format: Format, dest: Path, entries: seq<Entry>)
    ensures Extract(format, dest, entries).Ok? <==> !Conflict(Writes(format, entries))
    ensures Extract(format, dest, entries).Ok? ==> IsLastWriterTree(Writes(format, entries), Extract(format, dest, entries).value)
  {
    if entries != [] {
      var n := |entries| - 1;
      var before, e := entries[..n], entries[n];
      var w := Write(Accepted(format, e), e.contents);
      ExtractionSucceedsIff(format, dest, before);
      WritesSplit(format, entries);
      hide Conflict, IsLastWriterTree, HasRoom, Accepted;
      if Extract(format, dest, before).Ok? {
        var t := Extract(format, dest, before).value;
        StepSucceedsIff(format, dest, t, e);
        ConflictIffNoRoom(Writes(format, before), t, w);
        ExtendLastWriterTree(Writes(format, before), t, w);
      } else {
        ConflictStays(Writes(format, before), w);
      }
    } else {
      assert Writes(format, entries) == [];
    }
  }

  /** An entry whose kind matches its slash asks for numeric directories and for a tile. */
  lemma MatchedSlot(format: Format, e: Entry)
    requires Matched(format, e) && Accepted(format, e).Some?
    ensures var slot := Accepted(format, e).value;
            && (slot.FileAt? ==> IsTilePath(slot.file))
            && forall q | q in DirsOf(slot) :: |q| > 0 && AllNumeric(q)
  {
    var p := Segments(EntryName(format, e));
    if e.kind == Directory { PrefixesAreNumeric(p); } else { PrefixesAreNumeric(Parent(p)); }
  }

  /** The writes of matched entries ask for tiles as files and numeric names as directories only. */
  ghost predicate Orderly(ws: seq<Write>) {
    && (forall p | WritesFile(ws, p) :: IsTilePath(p))
    && (forall q | MakesDir(ws, q) :: |q| > 0 && AllNumeric(q))
  }

  lemma MatchedIsOrderly(format: Format, entries: seq<Entry>)
    requires forall e | e in entries :: Matched(format, e)
    ensures Orderly(Writes(format, entries))
  {
    var ws := Writes(format, entries);
    forall i | 0 <= i < |ws| && ws[i].slot.Some?
      ensures ws[i].slot.value.FileAt? ==> IsTilePath(ws[i].slot.value.file)
      ensures forall q | q in DirsOf(ws[i].slot.value) :: |q| > 0 && AllNumeric(q)
    {
      assert entries[i] in entries;
      MatchedSlot(format, entries[i]);
    }
  }

  lemma OrderlyTreeIsTidy(ws: seq<Write>, t: Tree)
    requires Orderly(ws)
    ensures !Conflict(ws)
    ensures IsLastWriterTree(ws, t) ==> Tidy(t)
  {
    hide IsTilePath, AllNumeric;
    forall p | IsTilePath(p) ensures |p| > 0 && !AllNumeric(p) {
      TileIsNotEmpty(p);
      NumericIsNoTile(p);
    }
    if IsLastWriterTree(ws, t) {
      forall p | p in t.files ensures Above(Parent(p)) <= t.dirs {
        var i :| 0 <= i < |ws| && ws[i].slot == Some(FileAt(p));
        assert DirsOf(ws[i].slot.value) == Above(Parent(p));
        assert forall q | q in Above(Parent(p)) :: MakesDir(ws, q);
      }
    }
  }

  lemma TileIsNotEmpty(p: Path)
    requires IsTilePath(p)
    ensures |p| > 0
  {
  }

  /** For entries whose kind matches the trailing slash, extraction never meets a file where it
      needs a directory or the reverse, and yields exactly the last-writer-wins tree. */
  lemma ExtractionIsLastWriterWins(format: Format, dest: Path, entries: seq<Entry>)
    requires forall e | e in entries :: Matched(format, e)
    ensures var r := Extract(format, dest, entries);
            r.Ok? && Tidy(r.value) && IsLastWriterTree(Writes(format, entries), r.value)
  {
    hide *;
    ExtractionSucceedsIff(format, dest, entries);
    MatchedIsOrderly(format, entries);
    var r := Extract(format, dest, entries);
    OrderlyTreeIsTidy(Writes(format, entries), if r.Ok? then r.value else EMPTY_TREE);
  }

  lemma WritesSplit(format: Format, entries: seq<Entry>)
    requires |entries| > 0
    ensures var n := |entries| - 1;
            var last := Write(Accepted(format, entries[n]), entries[n].contents);
            Writes(format, entries) == Writes(format, entries[..n]) + [last]
  {
    var n := |entries| - 1;
    assert forall i | 0 <= i < n :: entries[..n][i] == entries[i];
  }

  lemma ExtendLastWriterTree(before: seq<Write>, t: Tree, w: Write)
    requires IsLastWriterTree(before, t)
    ensures IsLastWriterTree(before + [w], Placed(t, w.slot, w.contents))
  {
    var ws, n := before + [w], |before|;
    var t' := Placed(t, w.slot, w.contents);
    assert ws[n] == w && forall i | 0 <= i < n :: ws[i] == before[i];
    forall p ensures p in t'.files <==> WritesFile(ws, p) {
      if p in t.files {
        var i :| 0 <= i < n && before[i].slot == Some(FileAt(p));
        assert ws[i].slot == Some(FileAt(p));
      }
    }
    forall p, i | LastWriter(ws, p, i) && p in t'.files
      ensures t'.files[p] == ws[i].contents
    {
      if i < n {
        assert ws[n].slot != Some(FileAt(p));
        assert LastWriter(before, p, i);
      }
    }
    forall q ensures q in t'.dirs <==> MakesDir(ws, q) {
      if q in t.dirs {
        var i :| 0 <= i < n && before[i].slot.Some? && q in DirsOf(before[i].slot.value);
        assert q in DirsOf(ws[i].slot.value);
      }
    }
  }

  lemma {:induction false} LastWriterExists(ws: seq<Write>, p: Path, i: nat) returns (k: nat)
    requires i < |ws| && ws[i].slot == Some(FileAt(p))
    ensures LastWriter(ws, p, k)
    decreases |ws| - i
  {
    if j :| i < j < |ws| && ws[j].slot == Some(FileAt(p)) {
      k := LastWriterExists(ws, p, j);
    } else {
      k := i;
    }
  }

  /** The description fixes the tree: it says every file, every byte and every directory. */
  lemma LastWriterTreeIsUnique(ws: seq<Write>, t: Tree, t': Tree)
    requires IsLastWriterTree(ws, t) && IsLastWriterTree(ws, t')
    ensures t == t'
  {
    assert forall p :: p in t.files <==> p in t'.files;
    forall p | p in t.files ensures t.files[p] == t'.files[p] {
      var i :| 0 <= i < |ws| && ws[i].slot == Some(FileAt(p));
      var k := LastWriterExists(ws, p, i);
    }
    assert t.files == t'.files;
    assert forall q :: q in t.dirs <==> q in t'.dirs;
  }

  /** Zip and tar extract the same matched files, directories and symlinks to the same tree. */
  lemma ZipAndTarAgree(dest: Path, dest': Path, entries: seq<Entry>)
    requires forall e | e in entries :: e.kind in {Regular, Directory, Symlink}
    requires forall e | e in entries :: Matched(Zip, e) && Matched(Tar, e)
    ensures Extract(Zip, dest, entries) == Extract(Tar, dest', entries)
  {
    ExtractionIsLastWriterWins(Zip, dest, entries);
    ExtractionIsLastWriterWins(Tar, dest', entries);
    forall i | 0 <= i < |entries| ensures Accepted(Zip, entries[i]) == Accepted(Tar, entries[i]) {
      assert entries[i] in entries;
    }
    assert Writes(Zip, entries) == Writes(Tar, entries);
    LastWriterTreeIsUnique(Writes(Zip, entries), Extract(Zip, dest, entries).value, Extract(Tar, dest', entries).value);
  }

  lemma SegmentsOfDirName(d: string)
    requires IsNumeric(d)
    ensures Segments(d + "/") == [d] && IsDirName(d + "/") && !HasDotDot(d + "/")
  {
    var s := d + "/";
    assert s[..|d|] == d;
    assert forall i | 0 <= i < |d| :: IsDigit(d[i]) && s[i] == d[i];
    assert TrimLeft(s) == s && TrimRight(s) == TrimRight(d) == d;
    SplitAfter(d, "");
    assert d + "" == d;
  }

  /** Without the agreement of kind and slash there can be a conflict: a regular tar entry named like a
      directory becomes a file that a later entry needs as a directory. */
  lemma MismatchedEntryFails(d: string, tile: string, a: Bytes, b: Bytes)
    requires IsNumeric(d) && IsPngName(tile)
    ensures var entries := [Entry(d + "/", Regular, a), Entry(d + "/" + tile, Regular, b)];
            && !Matched(Tar, entries[0]) && Conflict(Writes(Tar, entries))
            && Extract(Tar, [], entries) == Err(NotADirectory)
  {
    var first, second := Entry(d + "/", Regular, a), Entry(d + "/" + tile, Regular, b);
    var p := [d, tile];
    SegmentsOfDirName(d);
    assert IsTilePath(p) by { assert p[..1] == [d]; }
    assert second.name == Join(p) by { assert p[1..] == [tile]; }
    ValidSegmentsArePlain(p);
    SegmentsOfJoin(p);
    TilePathHasNoDotDot(p);
    TargetIsBelowDest([], first.name);
    TargetIsBelowDest([], second.name);
    MismatchedSteps(d, p, first, second);
    var entries := [first, second];
    assert entries[..1] == [first] && [first][..0] == [];
    assert Extract(Tar, [], [first]) == Step(Tar, [], EMPTY_TREE, first);
    ExtractionSucceedsIff(Tar, [], entries);
  }

  lemma MismatchedSteps(d: string, p: Path, first: Entry, second: Entry)
    requires first.kind == Regular && second.kind == Regular && |p| == 2 && p[0] == d
    requires !HasDotDot(first.name) && !HasDotDot(second.name)
    requires ResolveTarget([], first.name) == Some([] + [d]) && ResolveTarget([], second.name) == Some([] + p)
    ensures Step(Tar, [], EMPTY_TREE, first) == Ok(Tree({}, map[[d] := first.contents]))
    ensures Step(Tar, [], Tree({}, map[[d] := first.contents]), second) == Err(NotADirectory)
  {
    assert ([] + [d])[0..] == [d] && ([] + p)[0..] == p;
    assert Parent([d]) == [] && EMPTY_TREE.dirs + Above([]) == {};
    assert EMPTY_TREE.files[[d] := first.contents] == map[[d] := first.contents];
    assert Parent(p) == [d];
    assert [d] in Above([d]) by { assert [d][..1] == [d]; }
  }

  // ----- Streaming a version directory as a zip and extracting it again -----

  /** order lists every file of the tree once: some order in which the directory walk meets them. */
  ghost predicate Enumerates<T(!new)>(order: seq<T>, s: set<T>) {
    && (forall i, j | 0 <= i < j < |order| :: order[i] != order[j])
    && (forall x :: x in order <==> x in s)
  }

  function FileEntry(p: Path, contents: Bytes): Entry
    requires |p| > 0
  {
    Entry(Join(p), Regular, contents)
  }

  ghost predicate IsZipOf(t: Tree, entries: seq<Entry>) {
    exists order :: ZipOrder(t, entries, order)
  }

  ghost predicate ZipOrder(t: Tree, entries: seq<Entry>, order: seq<Path>) {
    && Enumerates(order, t.files.Keys)
    && |entries| == |order|
    && forall i | 0 <= i < |order| :: |order[i]| > 0 && entries[i] == FileEntry(order[i], t.files[order[i]])
  }

  ghost predicate WellFormedTree(t: Tree) {
    forall p | p in t.files :: WellFormed(p)
  }

  /** mapVersionArchiveHandler's walk: directories are passed over, every file becomes an entry. */
  method ZipDirectory(order: seq<Path>, t: Tree) returns (entries: seq<Entry>)
    requires WellFormedTree(t) && Enumerates(order, t.files.Keys)
    ensures ZipOrder(t, entries, order)
  {
    entries := [];
    assert forall i | 0 <= i < |order| :: order[i] in order;
    for i := 0 to |order|
      invariant |entries| == i
      invariant forall j | 0 <= j < i :: entries[j] == FileEntry(order[j], t.files[order[j]])
    {
      entries := entries + [FileEntry(order[i], t.files[order[i]])];
    }
  }

  /** The tile files of a tree and the directories that hold them. */
  function TilePart(t: Tree): Tree {
    var files := map p | p in t.files && IsTilePath(p) :: t.files[p];
    Tree(set p, q | p in files.Keys && q in Above(Parent(p)) :: q, files)
  }

  lemma FileEntryAccepted(p: Path, contents: Bytes)
    requires WellFormed(p)
    ensures Matched(Zip, FileEntry(p, contents))
    ensures Accepted(Zip, FileEntry(p, contents)) == if IsTilePath(p) then Some(FileAt(p)) else None
  {
    SegmentsOfJoin(p);
    assert p[0] in p;
    if IsTilePath(p) { TilePathHasNoDotDot(p); }
  }

  /** The requests a zip of t makes: its tile files, in walk order. */
  ghost predicate WritesTiles(t: Tree, ws: seq<Write>, order: seq<Path>) {
    && Enumerates(order, t.files.Keys)
    && |ws| == |order|
    && forall i | 0 <= i < |order| ::
         && order[i] in t.files
         && ws[i] == Write(if IsTilePath(order[i]) then Some(FileAt(order[i])) else None, t.files[order[i]])
  }

  lemma TilePartIsLastWriterTree(t: Tree, ws: seq<Write>, order: seq<Path>)
    requires WritesTiles(t, ws, order)
    ensures IsLastWriterTree(ws, TilePart(t))
  {
    var part := TilePart(t);
    forall p ensures p in part.files <==> WritesFile(ws, p) {
      if p in part.files {
        var i :| 0 <= i < |order| && order[i] == p;
        assert ws[i].slot == Some(FileAt(p));
      }
    }
    forall q ensures q in part.dirs <==> MakesDir(ws, q) {
      if q in part.dirs {
        var p :| p in part.files.Keys && q in Above(Parent(p));
        var i :| 0 <= i < |order| && order[i] == p;
        assert q in DirsOf(ws[i].slot.value);
      }
      if MakesDir(ws, q) {
        var i :| 0 <= i < |ws| && ws[i].slot.Some? && q in DirsOf(ws[i].slot.value);
        assert order[i] in part.files.Keys;
      }
    }
  }

  /** Zipping a directory and extracting the zip keeps exactly the tile files with their contents;
      everything else, index.json included, is dropped. */
  lemma ZipThenExtract(t: Tree, entries: seq<Entry>, dest: Path)
    requires WellFormedTree(t) && IsZipOf(t, entries)
    ensures Extract(Zip, dest, entries) == Ok(TilePart(t))
  {
    var order :| ZipOrder(t, entries, order);
    forall i | 0 <= i < |entries|
      ensures Matched(Zip, entries[i]) && order[i] in t.files
      ensures Accepted(Zip, entries[i]) == if IsTilePath(order[i]) then Some(FileAt(order[i])) else None
    {
      assert order[i] in order;
      FileEntryAccepted(order[i], t.files[order[i]]);
    }
    ExtractionIsLastWriterWins(Zip, dest, entries);
    TilePartIsLastWriterTree(t, Writes(Zip, entries), order);
    LastWriterTreeIsUnique(Writes(Zip, entries), Extract(Zip, dest, entries).value, TilePart(t));
  }

  // ----- Entry by entry, in the entry's own terms -----

  lemma OneMoreEntry(format: Format, dest: Path, entries: seq<Entry>, e: Entry)
    ensures var before := Extract(format, dest, entries);
            Extract(format, dest, entries + [e]) == if before.Ok? then Step(format, dest, before.value, e) else before
  {
    assert (entries + [e])[..|entries|] == entries;
  }

  /** Links, special files in a tar, and names with a parent traversal leave no trace. */
  lemma SkippedLeavesNoTrace(format: Format, dest: Path, entries: seq<Entry>, e: Entry)
    requires e.kind == Symlink || HasDotDot(e.name) || (format == Tar && (e.kind == Hardlink || e.kind == Special))
    ensures Extract(format, dest, entries + [e]) == Extract(format, dest, entries)
  {
    OneMoreEntry(format, dest, entries, e);
    TargetIsBelowDest(dest, TarName(e));
  }

  /** A tile's entry, if nothing is in its way, is stored under its path with its contents, together with
      the directories above it, and changes nothing else. */
  lemma TileIsStored(format: Format, dest: Path, entries: seq<Entry>, e: Entry, p: Path)
    requires e.kind == Regular && IsTilePath(p) && e.name == Join(p) && Extract(format, dest, entries + [e]).Ok?
    ensures Extract(format, dest, entries).Ok?
    ensures var before := Extract(format, dest, entries).value;
            Extract(format, dest, entries + [e]) == Ok(Tree(before.dirs + Above(Parent(p)), before.files[p := e.contents]))
  {
    OneMoreEntry(format, dest, entries, e);
    ValidSegmentsArePlain(p);
    SegmentsOfJoin(p);
    TilePathHasNoDotDot(p);
    TargetIsBelowDest(dest, e.name);
    assert (dest + p)[|dest|..] == p;
    NamedIsNotRoot(p);
  }

  lemma NamedIsNotRoot(p: Path)
    requires IsTilePath(p)
    ensures p[0] != ""
  {
    if |p| == 1 {
      assert |p[0]| > 4;
    } else {
      assert p[..|p| - 1][0] == p[0] && p[0] in p[..|p| - 1];
    }
  }

  /** A directory's entry, with the slash or, in a tar, without, makes the directory and those above it. */
  lemma DirectoryIsMade(format: Format, dest: Path, entries: seq<Entry>, e: Entry, d: string)
    requires e.kind == Directory && IsNumeric(d) && (e.name == d + "/" || (format == Tar && e.name == d))
    requires Extract(format, dest, entries + [e]).Ok?
    ensures Extract(format, dest, entries).Ok?
    ensures var before := Extract(format, dest, entries).value;
            Extract(format, dest, entries + [e]) == Ok(before.(dirs := before.dirs + {[d]}))
  {
    OneMoreEntry(format, dest, entries, e);
    SegmentsOfDirName(d);
    PlainName(d);
    TargetIsBelowDest(dest, d + "/");
    assert (dest + [d])[|dest|..] == [d];
    assert Above([d]) == {[d]} by { assert [d][..1] == [d]; }
  }

  lemma PlainName(d: string)
    requires IsNumeric(d)
    ensures !IsDirName(d) && !HasDotDot(d) && d != ""
  {
    assert IsDigit(d[|d| - 1]);
    forall i | 0 <= i < |d| - 1 ensures d[i] != '.' { assert IsDigit(d[i]); }
  }
}
