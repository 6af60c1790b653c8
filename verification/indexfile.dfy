/** The bytes of index.json: read by field name, they give back the list they were printed from. */
module IndexFile {
  import opened Archive
  import opened Numerals
  import opened Paths
  import opened TileIndex
  import opened Wrappers

  // ----- A reader that goes by names -----

  /** How many digits s begins with. */
  function Digits(s: string): (n: nat)
    ensures n <= |s| && forall i | 0 <= i < n :: IsDigit(s[i])
    ensures n < |s| ==> !IsDigit(s[n])
  {
    if s != "" && IsDigit(s[0]) then 1 + Digits(s[1..]) else 0
  }

  function ReadInt(s: string): (r: Option<(int, string)>)
    ensures r.Some? ==> |r.value.1| < |s|
  {
    var negative := s != "" && s[0] == '-';
    var t := if negative then s[1..] else s;
    var n := Digits(t);
    if n == 0 then None
    else Some((if negative then 0 - DigitsValue(t[..n]) else DigitsValue(t[..n]), t[n..]))
  }

  /** How far it is to the next c, or to the end. */
  function Until(s: string, c: char): (n: nat)
    ensures n <= |s| && c !in s[..n] && (n < |s| ==> s[n] == c)
  {
    if s == "" || s[0] == c then 0
    else
      var n := Until(s[1..], c);
      assert s[..1 + n] == [s[0]] + s[1..][..n];
      1 + n
  }

  /** A quoted name and a colon. */
  function ReadName(s: string): (r: Option<(string, string)>)
    ensures r.Some? ==> |r.value.1| < |s|
  {
    if s == "" || s[0] != '"' then None
    else
      var t := s[1..];
      var n := Until(t, '"');
      if n + 1 < |t| && t[n + 1] == ':' then Some((t[..n], t[n + 2..])) else None
  }

  type Fields = map<string, int>

  /** The fields of an object after its opening brace, in whatever order; a later one of the same name
      counts. */
  function ReadFields(s: string, fields: Fields): (r: Option<(Fields, string)>)
    ensures r.Some? ==> |r.value.1| < |s|
    decreases |s|
  {
    match ReadName(s)
    case None => None
    case Some((name, rest)) =>
      match ReadInt(rest)
      case None => None
      case Some((n, tail)) =>
        if tail == "" then None
        else if tail[0] == '}' then Some((fields[name := n], tail[1..]))
        else if tail[0] == ',' then ReadFields(tail[1..], fields[name := n])
        else None
  }

  function ReadTile(s: string): (r: Option<(Tile, string)>)
    ensures r.Some? ==> |r.value.1| < |s|
  {
    if s == "" || s[0] != '{' then None
    else
      match ReadFields(s[1..], map[])
      case None => None
      case Some((fields, rest)) =>
        if "z" in fields && "x" in fields && "y" in fields
        then Some((Tile(fields["z"], fields["x"], fields["y"]), rest))
        else None
  }

  /** The elements of a list after its opening bracket, and the brace that closes the index. */
  function ReadTiles(s: string): Option<seq<Tile>>
    decreases |s|
  {
    match ReadTile(s)
    case None => None
    case Some((t, rest)) =>
      if rest == "]}" then Some([t])
      else if rest != "" && rest[0] == ',' then
        match ReadTiles(rest[1..])
        case None => None
        case Some(ts) => Some([t] + ts)
      else None
  }

  const HEAD := "{\"tiles\":"

  /** The tiles a client finds in index.json; null is an empty list. */
  function DecodeIndex(b: Bytes): Option<seq<Tile>> {
    if !(HEAD <= b) then None
    else
      var rest := b[|HEAD|..];
      if rest == "null}" || rest == "[]}" then Some([])
      else if rest != "" && rest[0] == '[' then ReadTiles(rest[1..])
      else None
  }

  // ----- It reads back what was printed -----

  lemma {:induction false} DigitsThen(a: string, rest: string)
    requires (forall i | 0 <= i < |a| :: IsDigit(a[i])) && rest != "" && !IsDigit(rest[0])
    ensures Digits(a + rest) == |a|
  {
    if a == "" {
      assert a + rest == rest;
    } else {
      DigitsThen(a[1..], rest);
      assert (a + rest)[1..] == a[1..] + rest;
    }
  }

  lemma ReadIntOf(n: int, rest: string)
    requires rest != "" && !IsDigit(rest[0])
    ensures ReadInt(ItoaInt(n) + rest) == Some((n, rest))
  {
    var digits := Itoa(if n < 0 then -n else n);
    DigitsOfItoa(if n < 0 then -n else n);
    DigitsThen(digits, rest);
    assert IsDigit(digits[0]);
    assert (digits + rest)[..|digits|] == digits && (digits + rest)[|digits|..] == rest;
    if n < 0 {
      assert (ItoaInt(n) + rest)[1..] == digits + rest;
    } else {
      assert ItoaInt(n) + rest == digits + rest;
    }
  }

  lemma {:induction false} UntilThen(a: string, c: char, rest: string)
    requires c !in a
    ensures Until(a + [c] + rest, c) == |a|
  {
    if a == "" {
      assert a + [c] + rest == [c] + rest;
    } else {
      assert a[0] in a && forall x | x in a[1..] :: x in a;
      UntilThen(a[1..], c, rest);
      assert (a + [c] + rest)[1..] == a[1..] + [c] + rest;
    }
  }

  function Field(name: string, n: int): string { ['"'] + name + ['"', ':'] + ItoaInt(n) }

  lemma ReadNameOf(name: string, rest: string)
    requires '"' !in name
    ensures ReadName(['"'] + name + ['"', ':'] + rest) == Some((name, rest))
  {
    var s := ['"'] + name + ['"', ':'] + rest;
    var t := s[1..];
    assert t == name + ['"'] + ([':'] + rest);
    UntilThen(name, '"', [':'] + rest);
    assert t[..|name|] == name && t[|name| + 2..] == rest;
  }

  /** One field, with another or the closing brace behind it. */
  lemma ReadFieldOf(name: string, n: int, rest: string, fields: Fields)
    requires '"' !in name && rest != "" && (rest[0] == ',' || rest[0] == '}')
    ensures ReadFields(Field(name, n) + rest, fields) ==
              if rest[0] == '}' then Some((fields[name := n], rest[1..])) else ReadFields(rest[1..], fields[name := n])
  {
    hide ItoaInt, ReadName, ReadInt;
    var tail := ItoaInt(n) + rest;
    assert Field(name, n) + rest == ['"'] + name + ['"', ':'] + tail;
    ReadNameOf(name, tail);
    ReadIntOf(n, rest);
  }

  lemma ReadTileOf(t: Tile, rest: string)
    ensures ReadTile(EncodeTile(t) + rest) == Some((t, rest))
  {
    hide ItoaInt, ReadFields;
    var y := Field("y", t.y) + (['}'] + rest);
    var x := Field("x", t.x) + ([','] + y);
    var z := Field("z", t.z) + ([','] + x);
    assert EncodeTile(t) + rest == ['{'] + z;
    hide Field;
    ReadFieldOf("z", t.z, [','] + x, map[]);
    ReadFieldOf("x", t.x, [','] + y, map["z" := t.z]);
    ReadFieldOf("y", t.y, ['}'] + rest, map["z" := t.z, "x" := t.x]);
  }

  lemma {:induction false} ReadTilesOf(s: seq<Tile>)
    requires s != []
    ensures ReadTiles(EncodeTiles(s) + "]}") == Some(s)
  {
    hide EncodeTile, ReadTile;
    if |s| == 1 {
      ReadTileOf(s[0], "]}");
      assert s == [s[0]];
    } else {
      var rest := [','] + (EncodeTiles(s[1..]) + "]}");
      ReadTilesOf(s[1..]);
      ReadTileOf(s[0], rest);
      assert EncodeTiles(s) + "]}" == EncodeTile(s[0]) + rest;
      assert rest[1..] == EncodeTiles(s[1..]) + "]}";
      assert rest != "]}" by { assert rest[0] == ','; }
      assert s == [s[0]] + s[1..];
    }
  }

  lemma TilesOpen(s: seq<Tile>)
    requires s != []
    ensures EncodeTiles(s) != "" && EncodeTiles(s)[0] == '{'
  {
  }

  /** Reading index.json by field names gives the list of tiles back, whatever they are. */
  lemma DecodeOfEncode(s: seq<Tile>)
    ensures DecodeIndex(EncodeIndex(s)) == Some(s)
  {
    hide EncodeTiles, ReadTiles;
    if s == [] {
      assert EncodeIndex(s) == HEAD + "null}";
    } else {
      var body := EncodeTiles(s) + "]}";
      assert EncodeIndex(s) == HEAD + (['['] + body);
      ReadTilesOf(s);
      TilesOpen(s);
      var rest := ['['] + body;
      assert rest[1..] == body && rest[0] == '[' && rest[1] == '{';
      assert (HEAD + rest)[|HEAD|..] == rest;
    }
  }

  // ----- What the file says about the directory -----

  lemma {:induction false} OneCoordEach(ps: set<Path>)
    ensures |SortedCoords(ps)| == |ps|
    decreases |ps|
  {
    assert |SortedCoords(ps)| == |multiset(SortedCoords(ps))| == |CoordsOf(ps)|;
    if ps != {} {
      var p :| p in ps;
      CoordsRemove(ps, p);
      OneCoordEach(ps - {p});
      assert |SortedCoords(ps - {p})| == |multiset(SortedCoords(ps - {p}))| == |CoordsOf(ps - {p})|;
    }
  }

  /** Of some of the tiles the index is that of all of them exactly if they are all of them. */
  lemma IndexOfSomeIff(some: set<Path>, all: set<Path>)
    requires some <= all
    ensures EncodeIndex(SortedCoords(some)) == EncodeIndex(SortedCoords(all)) <==> some == all
  {
    hide EncodeIndex, DecodeIndex, SortedCoords;
    if EncodeIndex(SortedCoords(some)) == EncodeIndex(SortedCoords(all)) {
      DecodeOfEncode(SortedCoords(some));
      DecodeOfEncode(SortedCoords(all));
      OneCoordEach(some);
      OneCoordEach(all);
      SubsetOfSameSize(some, all);
    }
  }

  lemma SubsetOfSameSize(some: set<Path>, all: set<Path>)
    requires some <= all && |some| == |all|
    ensures some == all
  {
    var rest := all - some;
    assert some + rest == all;
    assert |some + rest| == |some| + |rest|;
    assert rest == {};
  }

  lemma {:induction false} CoordsHave(ps: set<Path>, c: Tile)
    ensures c in CoordsOf(ps) <==> exists p :: p in ps && Coord(p) == c
    decreases |ps|
  {
    if ps != {} {
      var p :| p in ps;
      CoordsRemove(ps, p);
      CoordsHave(ps - {p}, c);
    }
  }

  /** The tile with these coordinates: two directories and a .png file whose names spell them. */
  predicate IsTileOf(p: Path, z: int, x: int, y: int) {
    && |p| == 3 && Atoi(p[0]) == Some(z) && Atoi(p[1]) == Some(x)
    && |p[2]| > 4 && p[2][|p[2]| - 4..] == ".png" && Atoi(p[2][..|p[2]| - 4]) == Some(y)
  }

  /** What a client reads in an extracted version's index.json, by field name: the tiles in the order of
      z, then x, then y, and coordinates are listed if and only if the directory has that tile. */
  lemma IndexFileListsTiles(t: Tree)
    requires Tidy(t)
    ensures var file := WithIndex(t).files[INDEX_PATH];
            && DecodeIndex(file).Some?
            && var tiles := DecodeIndex(file).value;
               && (forall i, j | 0 <= i < j < |tiles| ::
                     || tiles[i].z < tiles[j].z
                     || (tiles[i].z == tiles[j].z && tiles[i].x < tiles[j].x)
                     || (tiles[i].z == tiles[j].z && tiles[i].x == tiles[j].x && tiles[i].y <= tiles[j].y))
               && (forall z, x, y :: Tile(z, x, y) in tiles <==> exists p :: p in t.files && IsTileOf(p, z, x, y))
               && |tiles| == |TilesAt(t)|
  {
    var tiles := IndexOf(t);
    DecodeOfEncode(tiles);
    OneCoordEach(TilesAt(t));
    IndexListsTiles(t);
    forall z, x, y ensures Tile(z, x, y) in tiles <==> exists p :: p in t.files && IsTileOf(p, z, x, y) {
      assert Tile(z, x, y) in tiles <==> Tile(z, x, y) in multiset(tiles);
      CoordsHave(TilesAt(t), Tile(z, x, y));
      TilesSpell(t, z, x, y);
    }
  }

  lemma TilesSpell(t: Tree, z: int, x: int, y: int)
    requires Tidy(t) && forall p :: p in TilesAt(t) <==> p in t.files && |p| == 3 && TileIndex.Fits(p)
    ensures (exists p :: p in TilesAt(t) && Coord(p) == Tile(z, x, y)) <==> exists p :: p in t.files && IsTileOf(p, z, x, y)
  {
    hide TilesAt;
    assert forall p | p in t.files :: IsTilePath(p);
    hide Tidy, IsTileOf, TileIndex.Fits;
    forall p ensures p in TilesAt(t) && Coord(p) == Tile(z, x, y) <==> p in t.files && IsTileOf(p, z, x, y) {
      if p in t.files { TileSpells(p, z, x, y); }
    }
  }

  lemma TileSpells(p: Path, z: int, x: int, y: int)
    requires IsTilePath(p)
    ensures |p| == 3 && TileIndex.Fits(p) && Coord(p) == Tile(z, x, y) <==> IsTileOf(p, z, x, y)
  {
    if |p| == 3 { PngTail(p); }
    hide Atoi;
  }

  lemma PngTail(p: Path)
    requires IsTilePath(p)
    ensures var last := p[|p| - 1]; |last| > 4 && last[|last| - 4..] == ".png"
  {
  }
}
