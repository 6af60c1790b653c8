/** Slash-separated entry names and the paths they resolve to. A path is the sequence of its
    segments below the file-system root. */
module Paths {
  import opened Numerals
  import opened Wrappers

  type Path = seq<string>

  /** strings.Contains(name, "..") */
  predicate HasDotDot(s: string) {
    exists i | 0 <= i < |s| - 1 :: s[i] == '.' && s[i + 1] == '.'
  }

  predicate IsDirName(s: string) { |s| > 0 && s[|s| - 1] == '/' }

  function TrimLeft(s: string): string {
    if |s| > 0 && s[0] == '/' then TrimLeft(s[1..]) else s
  }

  function TrimRight(s: string): string {
    if |s| > 0 && s[|s| - 1] == '/' then TrimRight(s[..|s| - 1]) else s
  }

  /** strings.Trim(s, "/") */
  function Trim(s: string): string { TrimRight(TrimLeft(s)) }

  /** strings.Split(s, "/") */
  function Split(s: string): (segs: Path)
    ensures |segs| > 0
  {
    if s == [] then [""]
    else
      var rest := Split(s[1..]);
      if s[0] == '/' then [""] + rest else [[s[0]] + rest[0]] + rest[1..]
  }

  function Join(segs: Path): string
    requires |segs| > 0
  {
    if |segs| == 1 then segs[0] else segs[0] + "/" + Join(segs[1..])
  }

  /** A segment a file system can hold: not empty and without a separator. */
  predicate IsSegment(s: string) { |s| > 0 && '/' !in s }

  predicate WellFormed(p: Path) {
    |p| > 0 && forall s | s in p :: IsSegment(s)
  }

  /** numericPNGRE, ^[0-9]+\.png$ */
  predicate IsPngName(s: string) {
    |s| > 4 && s[|s| - 4..] == ".png" && IsNumeric(s[..|s| - 4])
  }

  predicate AllNumeric(p: Path) { forall s | s in p :: IsNumeric(s) }

  /** The relative paths a map version may hold as files: numeric directories and a numeric tile. */
  predicate IsTilePath(p: Path) {
    |p| > 0 && AllNumeric(p[..|p| - 1]) && IsPngName(p[|p| - 1])
  }

  function Segments(name: string): (segs: Path)
    ensures |segs| > 0
  {
    Split(Trim(name))
  }

  /** validateExtractedEntryName, as the condition under which it returns nil. */
  predicate ValidEntryName(name: string) {
    var segs := Segments(name);
    && segs[0] != ""
    && if IsDirName(name) then AllNumeric(segs) else IsTilePath(segs)
  }

  /** filepath.Clean on a rooted path, segment by segment: empty and "." segments vanish and ".."
      drops the segment before it. */
  function Clean(done: Path, rest: Path): Path
    decreases |rest|
  {
    if rest == [] then done
    else if rest[0] == "" || rest[0] == "." then Clean(done, rest[1..])
    else if rest[0] == ".." then Clean(if done == [] then [] else done[..|done| - 1], rest[1..])
    else Clean(done + [rest[0]], rest[1..])
  }

  /** filepath.Join(dest, strings.Trim(name, "/")), then the containment test against dest. */
  function ResolveTarget(dest: Path, name: string): Option<Path> {
    if !ValidEntryName(name) then None
    else
      var target := Clean(dest, Segments(name));
      if target == dest || dest <= target then Some(target) else None
  }

  lemma {:induction false} CleanKeepsPlain(done: Path, rest: Path)
    requires forall s | s in rest :: IsSegment(s) && s != "." && s != ".."
    ensures Clean(done, rest) == done + rest
    decreases |rest|
  {
    if rest != [] {
      assert rest[0] in rest && forall s | s in rest[1..] :: s in rest;
      CleanKeepsPlain(done + [rest[0]], rest[1..]);
      assert done + [rest[0]] + rest[1..] == done + rest;
    } else {
      assert done + rest == done;
    }
  }

  lemma PlainSegment(s: string)
    requires IsNumeric(s) || IsPngName(s)
    ensures IsSegment(s) && s != "." && s != ".."
  {
    if IsNumeric(s) {
      assert IsDigit(s[0]);
    } else {
      var n := |s| - 4;
      assert s == s[..n] + ".png";
      assert IsDigit(s[..n][0]) && s[0] == s[..n][0];
    }
  }

  lemma ValidSegmentsArePlain(segs: Path)
    requires |segs| > 0 && (AllNumeric(segs) || IsTilePath(segs))
    ensures WellFormed(segs) && forall s | s in segs :: s != "." && s != ".."
  {
    forall s | s in segs
      ensures IsSegment(s) && s != "." && s != ".."
    {
      var i :| 0 <= i < |segs| && segs[i] == s;
      if i < |segs| - 1 { assert segs[..|segs| - 1][i] == s; }
      PlainSegment(s);
    }
  }

  /** Every name that passes validation resolves, and to a path strictly below the clean staging
      directory; every other name is skipped. The containment test never rejects a valid name. */
  lemma TargetIsBelowDest(dest: Path, name: string)
    ensures ResolveTarget(dest, name) == if ValidEntryName(name) then Some(dest + Segments(name)) else None
    ensures ResolveTarget(dest, name).Some? ==> dest < ResolveTarget(dest, name).value
  {
    if ValidEntryName(name) {
      ValidSegmentsArePlain(Segments(name));
      CleanKeepsPlain(dest, Segments(name));
    }
  }

  lemma {:induction false} SplitAfter(a: string, rest: string)
    requires '/' !in a
    ensures Split(a + rest) == [a + Split(rest)[0]] + Split(rest)[1..]
  {
    if a == [] {
      assert a + rest == rest;
      assert Split(rest) == [Split(rest)[0]] + Split(rest)[1..];
      assert a + Split(rest)[0] == Split(rest)[0];
    } else {
      assert (a + rest)[0] == a[0] && a[0] in a;
      SplitAfter(a[1..], rest);
      assert (a + rest)[1..] == a[1..] + rest;
      assert [a[0]] + (a[1..] + Split(rest)[0]) == a + Split(rest)[0];
    }
  }

  lemma {:induction false} SplitOfJoin(p: Path)
    requires WellFormed(p)
    ensures Split(Join(p)) == p
  {
    assert p[0] in p;
    if |p| == 1 {
      SplitAfter(p[0], "");
      assert p[0] + "" == p[0];
      assert p == [p[0]];
    } else {
      var rest := "/" + Join(p[1..]);
      assert WellFormed(p[1..]);
      SplitOfJoin(p[1..]);
      assert rest[1..] == Join(p[1..]);
      SplitAfter(p[0], rest);
      assert Split(rest) == [""] + p[1..];
      assert p[0] + "" == p[0];
      assert Join(p) == p[0] + rest;
      assert p == [p[0]] + p[1..];
    }
  }

  lemma {:induction false} JoinEnds(p: Path)
    requires WellFormed(p)
    ensures var s := Join(p); |s| > 0 && s[0] != '/' && s[|s| - 1] != '/'
  {
    assert p[0] in p && p[0][0] in p[0];
    assert p[0][|p[0]| - 1] in p[0];
    if |p| > 1 {
      assert WellFormed(p[1..]);
      JoinEnds(p[1..]);
    }
  }

  /** A well-formed path printed as an entry name is read back as the same segments. */
  lemma SegmentsOfJoin(p: Path)
    requires WellFormed(p)
    ensures Segments(Join(p)) == p && !IsDirName(Join(p))
  {
    JoinEnds(p);
    SplitOfJoin(p);
  }

  /** A name made of numeric directories and a numeric tile holds one dot only, the tile's. */
  lemma {:induction false} DotsOfTilePath(p: Path, i: nat)
    requires IsTilePath(p) && i < |Join(p)| && Join(p)[i] == '.'
    ensures i == |Join(p)| - 4
  {
    if |p| == 1 {
      var n := |p[0]| - 4;
      assert p[0] == p[0][..n] + ".png";
      assert forall j | 0 <= j < n :: p[0][j] == p[0][..n][j] && IsDigit(p[0][j]);
    } else {
      assert p[..|p| - 1][0] == p[0];
      assert IsNumeric(p[0]);
      assert forall j | 0 <= j < |p[0]| :: IsDigit(p[0][j]);
      assert p[1..][..|p[1..]| - 1] == p[..|p| - 1][1..];
      assert IsTilePath(p[1..]);
      DotsOfTilePath(p[1..], i - |p[0]| - 1);
    }
  }

  lemma TilePathHasNoDotDot(p: Path)
    requires IsTilePath(p)
    ensures !HasDotDot(Join(p))
  {
    if HasDotDot(Join(p)) {
      var s := Join(p);
      var i :| 0 <= i < |s| - 1 && s[i] == '.' && s[i + 1] == '.';
      DotsOfTilePath(p, i);
      DotsOfTilePath(p, i + 1);
    }
  }
}
