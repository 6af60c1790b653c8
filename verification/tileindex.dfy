/** The tile index: the scan of a z/x/y.png pyramid and the sorted list written to index.json. */
module TileIndex {
  import opened Archive
  import opened Numerals
  import opened Paths
  import opened Wrappers

  datatype Tile = Tile(z: int, x: int, y: int)

  const INDEX_PATH: Path := ["index.json"]

  predicate TileLe(a: Tile, b: Tile) {
    if a.z != b.z then a.z < b.z
    else if a.x != b.x then a.x < b.x
    else a.y <= b.y
  }

  predicate Sorted(s: seq<Tile>) {
    forall i, j | 0 <= i < j < |s| :: TileLe(s[i], s[j])
  }

  function AtoiOr0(s: string): int {
    match Atoi(s)
    case Some(n) => n
    case None => 0
  }

  function TileNumber(fileName: string): string {
    if |fileName| > 4 then fileName[..|fileName| - 4] else fileName
  }

  /** The coordinates a three-segment path spells. */
  function Coord(p: Path): Tile {
    if |p| == 3 then Tile(AtoiOr0(p[0]), AtoiOr0(p[1]), AtoiOr0(TileNumber(p[2]))) else Tile(0, 0, 0)
  }

  /** The entries the scan reports: two directories named by integers, then a numeric .png name
      (the scan does not ask whether that one is a file). Numbers beyond an int are passed over. */
  function TilesAt(t: Tree): (ps: set<Path>)
    ensures forall p | p in ps :: |p| == 3
  {
    set p | p in t.files.Keys + t.dirs && IsScanned(t, p) :: p
  }

  predicate IsScanned(t: Tree, p: Path) {
    && |p| == 3
    && [p[0]] in t.dirs && Atoi(p[0]).Some?
    && [p[0], p[1]] in t.dirs && Atoi(p[1]).Some?
    && IsPngName(p[2]) && Atoi(TileNumber(p[2])).Some?
  }

  ghost function CoordsOf(ps: set<Path>): multiset<Tile> {
    if ps == {} then multiset{}
    else
      var p :| p in ps;
      multiset{Coord(p)} + CoordsOf(ps - {p})
  }

  lemma {:induction false} CoordsRemove(ps: set<Path>, p: Path)
    requires p in ps
    ensures CoordsOf(ps) == multiset{Coord(p)} + CoordsOf(ps - {p})
    decreases |ps|
  {
    var q :| q in ps && CoordsOf(ps) == multiset{Coord(q)} + CoordsOf(ps - {q});
    if p != q {
      CoordsRemove(ps - {q}, p);
      CoordsRemove(ps - {p}, q);
      assert ps - {q} - {p} == ps - {p} - {q};
    }
  }

  lemma {:induction false} CoordsUnion(a: set<Path>, b: set<Path>)
    requires a !! b
    ensures CoordsOf(a + b) == CoordsOf(a) + CoordsOf(b)
    decreases |b|
  {
    if b == {} {
      assert a + b == a;
    } else {
      var p :| p in b;
      var rest := b - {p};
      CoordsUnion(a, rest);
      assert (a + b) - {p} == a + rest;
      CoordsRemove(b, p);
      CoordsRemove(a + b, p);
      Regroup(multiset{Coord(p)}, CoordsOf(a), CoordsOf(rest));
    }
  }

  lemma Regroup(c: multiset<Tile>, a: multiset<Tile>, b: multiset<Tile>)
    ensures c + (a + b) == a + (c + b)
  {
  }

  function Insert(s: seq<Tile>, t: Tile): (r: seq<Tile>)
    requires Sorted(s)
    ensures Sorted(r) && multiset(r) == multiset(s) + multiset{t}
  {
    if s == [] then [t]
    else
      assert s == [s[0]] + s[1..];
      if TileLe(t, s[0]) then
        PrependSorted(t, s);
        [t] + s
      else
        var rest := Insert(s[1..], t);
        InsertedAbove(s, t, rest);
        PrependSorted(s[0], rest);
        [s[0]] + rest
  }

  lemma InsertedAbove(s: seq<Tile>, t: Tile, rest: seq<Tile>)
    requires Sorted(s) && s != [] && !TileLe(t, s[0])
    requires multiset(rest) == multiset(s[1..]) + multiset{t}
    ensures forall x | x in multiset(rest) :: TileLe(s[0], x)
  {
    forall x | x in multiset(rest) ensures TileLe(s[0], x) {
      if x != t {
        assert x in s[1..];
        var i :| 0 <= i < |s[1..]| && s[1..][i] == x;
        assert TileLe(s[0], s[i + 1]);
      }
    }
  }

  lemma PrependSorted(h: Tile, s: seq<Tile>)
    requires Sorted(s) && forall x | x in multiset(s) :: TileLe(h, x)
    ensures Sorted([h] + s)
  {
    assert forall i | 0 <= i < |s| :: s[i] in multiset(s);
  }

  /** The list the index holds: the coordinates in (z, x, y) order, one for each path. */
  ghost function SortedCoords(ps: set<Path>): (s: seq<Tile>)
    ensures Sorted(s) && multiset(s) == CoordsOf(ps)
  {
    if ps == {} then []
    else
      var p :| p in ps;
      CoordsRemove(ps, p);
      Insert(SortedCoords(ps - {p}), Coord(p))
  }

  ghost function IndexOf(t: Tree): seq<Tile> { SortedCoords(TilesAt(t)) }

  lemma HeadIsLeast(a: seq<Tile>, b: seq<Tile>)
    requires Sorted(a) && multiset(a) == multiset(b) && a != [] && b != []
    ensures TileLe(a[0], b[0])
  {
    assert b[0] in multiset(a) by { assert b[0] in b; }
    var i :| 0 <= i < |a| && a[i] == b[0];
    if i > 0 { assert TileLe(a[0], a[i]); }
  }

  lemma TailElements(a: seq<Tile>)
    requires a != []
    ensures multiset(a[1..]) == multiset(a) - multiset{a[0]}
  {
    assert a == [a[0]] + a[1..];
  }

  /** A sorted list is fixed by its elements, so the sort's instability cannot be observed. */
  lemma {:induction false} SortedIsUnique(a: seq<Tile>, b: seq<Tile>)
    requires Sorted(a) && Sorted(b) && multiset(a) == multiset(b)
    ensures a == b
  {
    if a == [] {
      assert |multiset(b)| == 0;
    } else {
      assert |multiset(a)| == |a|;
      HeadIsLeast(a, b);
      HeadIsLeast(b, a);
      TailElements(a);
      TailElements(b);
      assert a == [a[0]] + a[1..] && b == [b[0]] + b[1..];
      SortedIsUnique(a[1..], b[1..]);
    }
  }

  function EncodeTile(t: Tile): string {
    "{\"z\":" + ItoaInt(t.z) + ",\"x\":" + ItoaInt(t.x) + ",\"y\":" + ItoaInt(t.y) + "}"
  }

  function EncodeTiles(s: seq<Tile>): string {
    if s == [] then ""
    else if |s| == 1 then EncodeTile(s[0])
    else EncodeTile(s[0]) + "," + EncodeTiles(s[1..])
  }

  /** json.Marshal of the index; a slice nothing was appended to is nil and prints as null. */
  function EncodeIndex(s: seq<Tile>): Bytes {
    if s == [] then "{\"tiles\":null}" else "{\"tiles\":[" + EncodeTiles(s) + "]}"
  }

  lemma IndexIsNotBlank(s: seq<Tile>)
    ensures |EncodeIndex(s)| > 0
  {
  }

  /** The directory after WriteTileIndex. */
  ghost function WithIndex(t: Tree): Tree {
    t.(files := t.files[INDEX_PATH := EncodeIndex(IndexOf(t))])
  }

  /** The directory with these bytes for an index file. */
  function Reindexed(t: Tree, index: Bytes): Tree { t.(files := t.files[INDEX_PATH := index]) }

  lemma IndexChangesNoTile(t: Tree, index: Bytes)
    ensures TilesAt(Reindexed(t, index)) == TilesAt(t)
  {
    var t' := Reindexed(t, index);
    assert t'.files.Keys == t.files.Keys + {INDEX_PATH};
    assert forall p | IsScanned(t, p) :: p != INDEX_PATH;
    assert forall p :: IsScanned(t', p) <==> IsScanned(t, p);
  }

  // ----- The scan, as the program does it -----

  function Children(t: Tree, dir: Path): set<string> {
    set p | p in t.files.Keys + t.dirs && |p| == |dir| + 1 && p[..|dir|] == dir :: p[|dir|]
  }

  method ReadDir(t: Tree, dir: Path) returns (names: seq<string>)
    ensures Enumerates(names, Children(t, dir))
  {
    names := [];
    var left := Children(t, dir);
    while left != {}
      invariant left <= Children(t, dir)
      invariant Enumerates(names, Children(t, dir) - left)
      decreases |left|
    {
      var name :| name in left;
      names := names + [name];
      left := left - {name};
    }
  }

  ghost function Under(t: Tree, z: string): set<Path> {
    set p | p in TilesAt(t) && p[0] == z :: p
  }

  ghost function UnderNames(t: Tree, zs: seq<string>): set<Path> {
    set p | p in TilesAt(t) && p[0] in zs :: p
  }

  ghost function UnderBoth(t: Tree, z: string, x: string): set<Path> {
    set p | p in TilesAt(t) && p[0] == z && p[1] == x :: p
  }

  ghost function UnderXs(t: Tree, z: string, xs: seq<string>): set<Path> {
    set p | p in TilesAt(t) && p[0] == z && p[1] in xs :: p
  }

  ghost function UnderYs(t: Tree, z: string, x: string, ys: seq<string>): set<Path> {
    set p | p in TilesAt(t) && p[0] == z && p[1] == x && p[2] in ys :: p
  }

  lemma FreshName(names: seq<string>, s: set<string>, i: nat)
    requires Enumerates(names, s) && i < |names|
    ensures names[i] !in names[..i] && names[..i + 1] == names[..i] + [names[i]]
  {
  }

  lemma YsGrow(t: Tree, z: string, x: string, ys: seq<string>, i: nat)
    requires Enumerates(ys, Children(t, [z, x])) && i < |ys|
    requires [z] in t.dirs && Atoi(z).Some? && [z, x] in t.dirs && Atoi(x).Some?
    ensures CoordsOf(UnderYs(t, z, x, ys[..i + 1])) ==
              if Atoi(TileNumber(ys[i])).Some? && IsPngName(ys[i])
              then CoordsOf(UnderYs(t, z, x, ys[..i])) + multiset{Coord([z, x, ys[i]])}
              else CoordsOf(UnderYs(t, z, x, ys[..i]))
  {
    YsGrowSet(t, z, x, ys, i);
    if [z, x, ys[i]] in TilesAt(t) {
      CoordsRemove(UnderYs(t, z, x, ys[..i + 1]), [z, x, ys[i]]);
    }
  }

  lemma NextIsTile(t: Tree, z: string, x: string, y: string)
    requires y in Children(t, [z, x])
    requires [z] in t.dirs && Atoi(z).Some? && [z, x] in t.dirs && Atoi(x).Some?
    ensures [z, x, y] in TilesAt(t) <==> Atoi(TileNumber(y)).Some? && IsPngName(y)
  {
    var q :| q in t.files.Keys + t.dirs && |q| == 3 && q[..2] == [z, x] && q[2] == y;
    assert q == [z, x, y];
  }

  lemma YsGrowSet(t: Tree, z: string, x: string, ys: seq<string>, i: nat)
    requires Enumerates(ys, Children(t, [z, x])) && i < |ys|
    requires [z] in t.dirs && Atoi(z).Some? && [z, x] in t.dirs && Atoi(x).Some?
    ensures var p := [z, x, ys[i]];
            var before, grown := UnderYs(t, z, x, ys[..i]), UnderYs(t, z, x, ys[..i + 1]);
            && (p in TilesAt(t) <==> Atoi(TileNumber(ys[i])).Some? && IsPngName(ys[i]))
            && if p in TilesAt(t) then p in grown && grown - {p} == before else grown == before
  {
    FreshName(ys, Children(t, [z, x]), i);
    assert ys[i] in ys;
    NextIsTile(t, z, x, ys[i]);
    hide TilesAt, Children, Atoi, IsPngName, TileNumber;
    var p, before, grown := [z, x, ys[i]], UnderYs(t, z, x, ys[..i]), UnderYs(t, z, x, ys[..i + 1]);
    forall r ensures r in grown <==> r in before || (r == p && p in TilesAt(t)) {
      OneMoreY(t, z, x, ys, i, r);
    }
    assert p !in before;
  }

  lemma OneMoreY(t: Tree, z: string, x: string, ys: seq<string>, i: nat, r: Path)
    requires i < |ys|
    ensures r in UnderYs(t, z, x, ys[..i + 1]) <==> r in UnderYs(t, z, x, ys[..i]) || (r == [z, x, ys[i]] && r in TilesAt(t))
  {
    hide TilesAt;
    assert forall y :: y in ys[..i + 1] <==> y in ys[..i] || y == ys[i];
    if r in TilesAt(t) && r[0] == z && r[1] == x && r[2] == ys[i] { assert r == [z, x, ys[i]]; }
  }

  lemma YsAll(t: Tree, z: string, x: string, ys: seq<string>)
    requires Enumerates(ys, Children(t, [z, x]))
    ensures UnderYs(t, z, x, ys[..|ys|]) == UnderBoth(t, z, x)
  {
    forall r | r in UnderBoth(t, z, x) ensures r[2] in ys {
      assert r in t.files.Keys + t.dirs && r[..2] == [z, x];
    }
    assert ys[..|ys|] == ys;
  }

  lemma XsAll(t: Tree, z: string, xs: seq<string>)
    requires Enumerates(xs, Children(t, [z]))
    ensures UnderXs(t, z, xs[..|xs|]) == Under(t, z)
  {
    forall r | r in Under(t, z) ensures r[1] in xs {
      assert [r[0], r[1]] in t.files.Keys + t.dirs && [r[0], r[1]][..1] == [z];
    }
    assert xs[..|xs|] == xs;
  }

  lemma ZsAll(t: Tree, zs: seq<string>)
    requires Enumerates(zs, Children(t, []))
    ensures UnderNames(t, zs[..|zs|]) == TilesAt(t)
  {
    forall r | r in TilesAt(t) ensures r[0] in zs {
      assert [r[0]] in t.files.Keys + t.dirs && [r[0]][..0] == [];
    }
    assert zs[..|zs|] == zs;
  }

  lemma XsGrow(t: Tree, z: string, xs: seq<string>, i: nat)
    requires i < |xs| && xs[i] !in xs[..i] && xs[..i + 1] == xs[..i] + [xs[i]]
    ensures UnderXs(t, z, xs[..i + 1]) == UnderXs(t, z, xs[..i]) + UnderBoth(t, z, xs[i])
    ensures UnderXs(t, z, xs[..i]) !! UnderBoth(t, z, xs[i])
  {
  }

  lemma ZsGrow(t: Tree, zs: seq<string>, i: nat)
    requires i < |zs| && zs[i] !in zs[..i] && zs[..i + 1] == zs[..i] + [zs[i]]
    ensures UnderNames(t, zs[..i + 1]) == UnderNames(t, zs[..i]) + Under(t, zs[i])
    ensures UnderNames(t, zs[..i]) !! Under(t, zs[i])
  {
  }

  /** The innermost loop of scanZoomTiles: the .png entries of one x directory. */
  method ScanColumn(t: Tree, zName: string, z: int, xName: string, x: int) returns (tiles: seq<Tile>)
    requires [zName] in t.dirs && Atoi(zName) == Some(z)
    requires [zName, xName] in t.dirs && Atoi(xName) == Some(x)
    ensures multiset(tiles) == CoordsOf(UnderBoth(t, zName, xName))
  {
    var ys := ReadDir(t, [zName, xName]);
    tiles := [];
    assert UnderYs(t, zName, xName, ys[..0]) == {};
    for i := 0 to |ys|
      invariant multiset(tiles) == CoordsOf(UnderYs(t, zName, xName, ys[..i]))
    {
      YsGrow(t, zName, xName, ys, i);
      var y := Atoi(TileNumber(ys[i]));
      if y.Some? && IsPngName(ys[i]) {
        tiles := tiles + [Tile(z, x, y.value)];
      }
    }
    YsAll(t, zName, xName, ys);
  }

  method ScanZoomTiles(t: Tree, zName: string, z: int) returns (tiles: seq<Tile>)
    requires [zName] in t.dirs && Atoi(zName) == Some(z)
    ensures multiset(tiles) == CoordsOf(Under(t, zName))
  {
    var xs := ReadDir(t, [zName]);
    tiles := [];
    assert UnderXs(t, zName, xs[..0]) == {};
    for i := 0 to |xs|
      invariant multiset(tiles) == CoordsOf(UnderXs(t, zName, xs[..i]))
    {
      ghost var before, here := UnderXs(t, zName, xs[..i]), UnderBoth(t, zName, xs[i]);
      FreshName(xs, Children(t, [zName]), i);
      XsGrow(t, zName, xs, i);
      CoordsUnion(before, here);
      var x := Atoi(xs[i]);
      if [zName, xs[i]] in t.dirs && x.Some? {
        var column := ScanColumn(t, zName, z, xs[i], x.value);
        tiles := tiles + column;
      } else {
        assert here == {};
      }
    }
    XsAll(t, zName, xs);
  }

  method ScanTileCoords(t: Tree) returns (tiles: seq<Tile>)
    ensures multiset(tiles) == CoordsOf(TilesAt(t))
  {
    var zs := ReadDir(t, []);
    tiles := [];
    assert UnderNames(t, zs[..0]) == {};
    for i := 0 to |zs|
      invariant multiset(tiles) == CoordsOf(UnderNames(t, zs[..i]))
    {
      ghost var before, here := UnderNames(t, zs[..i]), Under(t, zs[i]);
      FreshName(zs, Children(t, []), i);
      ZsGrow(t, zs, i);
      CoordsUnion(before, here);
      var z := Atoi(zs[i]);
      if [zs[i]] in t.dirs && z.Some? {
        var zoom := ScanZoomTiles(t, zs[i], z.value);
        tiles := tiles + zoom;
      } else {
        assert here == {};
      }
    }
    ZsAll(t, zs);
  }

  method SortTiles(tiles: seq<Tile>) returns (sorted: seq<Tile>)
    ensures Sorted(sorted) && multiset(sorted) == multiset(tiles)
  {
    sorted := [];
    for i := 0 to |tiles|
      invariant Sorted(sorted) && multiset(sorted) == multiset(tiles[..i])
    {
      assert tiles[..i + 1] == tiles[..i] + [tiles[i]];
      sorted := Insert(sorted, tiles[i]);
    }
    assert tiles[..|tiles|] == tiles;
  }

  method WriteTileIndex(t: Tree) returns (t': Tree)
    ensures t' == WithIndex(t)
  {
    var tiles := ScanTileCoords(t);
    var sorted := SortTiles(tiles);
    SortedIsUnique(sorted, IndexOf(t));
    t' := t.(files := t.files[INDEX_PATH := EncodeIndex(sorted)]);
  }

  // ----- What the index lists, and that it survives a mirror -----

  lemma IndexIsNoTile()
    ensures !IsTilePath(INDEX_PATH) && WellFormed(INDEX_PATH)
  {
    assert INDEX_PATH[0][|INDEX_PATH[0]| - 4..] == "json";
    assert "json"[0] != ".png"[0];
  }

  lemma NumericIsNoPng(s: string)
    requires IsNumeric(s)
    ensures !IsPngName(s)
  {
    if |s| > 4 {
      assert s[|s| - 4..][0] == s[|s| - 4];
      assert IsDigit(s[|s| - 4]);
    }
  }

  /** A tile's three numbers fit an int. */
  predicate Fits(p: Path)
    requires IsTilePath(p) && |p| == 3
  {
    && Atoi(p[0]).Some?
    && Atoi(p[1]).Some?
    && Atoi(TileNumber(p[2])).Some?
  }

  /** Of an extracted tree the index lists exactly the depth-three tiles whose numbers fit an int. */
  lemma IndexListsTiles(t: Tree)
    requires Tidy(t)
    ensures forall p :: p in TilesAt(t) <==> p in t.files && |p| == 3 && Fits(p)
  {
    forall p ensures p in TilesAt(t) <==> p in t.files && |p| == 3 && Fits(p) {
      if p in t.files && |p| == 3 {
        assert Above(Parent(p)) <= t.dirs;
        assert Parent(p)[..1] == [p[0]] && Parent(p)[..2] == [p[0], p[1]];
        assert [p[0]] in Above(Parent(p)) && [p[0], p[1]] in Above(Parent(p));
      }
      if p in t.dirs && |p| == 3 {
        assert p[2] in p;
        NumericIsNoPng(p[2]);
      }
    }
  }

  /** Mirroring a version directory by zip, extraction and a rebuilt index gives the same tile files,
      the same contents and the same index.json. */
  lemma MirrorReproducesVersion(r: Tree, version: Tree, entries: seq<Entry>, dest: Path)
    requires Tidy(r) && version == WithIndex(r) && IsZipOf(version, entries)
    ensures var copy := Extract(Zip, dest, entries);
            && copy.Ok?
            && copy.value.files == r.files
            && IndexOf(copy.value) == IndexOf(r)
            && WithIndex(copy.value).files == version.files
  {
    CopyOfVersion(r, version);
    ZipThenExtract(version, entries, dest);
  }

  lemma CopyOfVersion(r: Tree, version: Tree)
    requires Tidy(r) && version == WithIndex(r)
    ensures var copy := TilePart(version);
            && WellFormedTree(version)
            && copy.files == r.files
            && IndexOf(copy) == IndexOf(r)
            && WithIndex(copy).files == version.files
  {
    TilesOfVersion(r, version);
    TilePartIsTidy(version);
    SameTilesSameIndex(TilePart(version), r);
    SameIndexFile(TilePart(version), r);
  }

  lemma SameIndexFile(a: Tree, b: Tree)
    requires a.files == b.files && IndexOf(a) == IndexOf(b)
    ensures WithIndex(a).files == WithIndex(b).files
  {
  }

  lemma TilesOfVersion(r: Tree, t: Tree)
    requires Tidy(r) && t.files.Keys == r.files.Keys + {INDEX_PATH}
    requires forall p | p in r.files && p != INDEX_PATH :: t.files[p] == r.files[p]
    ensures WellFormedTree(t) && TilePart(t).files == r.files
  {
    IndexIsNoTile();
    assert forall p | p in r.files :: IsTilePath(p);
    hide Tidy, IsTilePath;
    forall p | p in t.files ensures WellFormed(p) {
      if p != INDEX_PATH { ValidSegmentsArePlain(p); }
    }
    hide WellFormed;
    assert TilePart(t).files.Keys == r.files.Keys;
  }

  lemma SameTilesSameIndex(a: Tree, b: Tree)
    requires Tidy(a) && Tidy(b) && a.files == b.files
    ensures IndexOf(a) == IndexOf(b)
  {
    IndexListsTiles(a);
    IndexListsTiles(b);
    assert TilesAt(a) == TilesAt(b);
  }

  lemma TilePartIsTidy(t: Tree)
    ensures Tidy(TilePart(t))
  {
    var part := TilePart(t);
    forall q | q in part.dirs ensures |q| > 0 && AllNumeric(q) {
      var p :| p in part.files.Keys && q in Above(Parent(p));
      PrefixesAreNumeric(Parent(p));
    }
  }
}
