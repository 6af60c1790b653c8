/** Which names the extractors accept, spelled out, and where they put what is named so. */
module EntryNames {
  import opened Paths
  import opened Wrappers
  import Numerals

  predicate IsDigits(s: string) { s != "" && forall i | 0 <= i < |s| :: '0' <= s[i] <= '9' }

  predicate AllSlashes(s: string) { forall i | 0 <= i < |s| :: s[i] == '/' }

  ghost predicate NamesDirectory(p: Path) { |p| > 0 && forall i | 0 <= i < |p| :: IsDigits(p[i]) }

  ghost predicate NamesTile(p: Path) {
    && |p| > 0
    && (forall i | 0 <= i < |p| - 1 :: IsDigits(p[i]))
    && exists n :: IsDigits(n) && p[|p| - 1] == n + ".png"
  }

  /** The name is p with slashes around it: none behind a tile, and some behind a directory. */
  ghost predicate Spells(name: string, before: string, p: Path, after: string) {
    && |p| > 0 && name == before + Join(p) + after
    && AllSlashes(before) && AllSlashes(after)
    && if after == "" then NamesTile(p) else NamesDirectory(p)
  }

  lemma PngNameIff(s: string)
    ensures IsPngName(s) <==> exists n :: IsDigits(n) && s == n + ".png"
  {
    if IsPngName(s) {
      var n := s[..|s| - 4];
      assert IsDigits(n) && s == n + ".png";
    }
    forall n | IsDigits(n) && s == n + ".png" ensures IsPngName(s) {
      assert s[..|s| - 4] == n && s[|s| - 4..] == ".png";
    }
  }

  lemma TilePathIff(p: Path)
    ensures IsTilePath(p) <==> NamesTile(p)
  {
    hide IsPngName, IsDigits, Numerals.IsNumeric;
    if |p| > 0 {
      PngNameIff(p[|p| - 1]);
      var front := p[..|p| - 1];
      NumericPathIff(front);
      assert forall i | 0 <= i < |front| :: front[i] == p[i];
    }
  }

  lemma NumericPathIff(p: Path)
    ensures AllNumeric(p) <==> forall i | 0 <= i < |p| :: IsDigits(p[i])
  {
    assert forall s :: Numerals.IsNumeric(s) <==> IsDigits(s);
    hide IsDigits, Numerals.IsNumeric;
    assert forall i | 0 <= i < |p| :: p[i] in p;
  }

  // ----- Trimming -----

  lemma {:induction false} TrimLeftOf(before: string, s: string)
    requires AllSlashes(before) && (s == "" || s[0] != '/')
    ensures TrimLeft(before + s) == s
  {
    if before == "" {
      assert before + s == s;
    } else {
      assert (before + s)[1..] == before[1..] + s;
      TrimLeftOf(before[1..], s);
    }
  }

  lemma {:induction false} TrimRightOf(s: string, after: string)
    requires AllSlashes(after) && (s == "" || s[|s| - 1] != '/')
    ensures TrimRight(s + after) == s
  {
    if after == "" {
      assert s + after == s;
    } else {
      assert (s + after)[..|s + after| - 1] == s + after[..|after| - 1];
      TrimRightOf(s, after[..|after| - 1]);
    }
  }

  lemma {:induction false} TrimmedLeft(s: string) returns (before: string)
    ensures AllSlashes(before) && s == before + TrimLeft(s)
  {
    if |s| > 0 && s[0] == '/' {
      var rest := TrimmedLeft(s[1..]);
      before := "/" + rest;
      assert s == "/" + s[1..];
    } else {
      before := "";
    }
  }

  lemma {:induction false} TrimmedRight(s: string) returns (after: string)
    ensures AllSlashes(after) && s == TrimRight(s) + after
  {
    if |s| > 0 && s[|s| - 1] == '/' {
      var rest := TrimmedRight(s[..|s| - 1]);
      after := rest + "/";
      assert s == s[..|s| - 1] + "/";
    } else {
      after := "";
    }
  }

  lemma {:induction false} JoinOfSplit(s: string)
    ensures Join(Split(s)) == s
  {
    if s != "" {
      var rest := Split(s[1..]);
      JoinOfSplit(s[1..]);
      if s[0] == '/' {
        assert ([""] + rest)[1..] == rest;
        assert s == "/" + s[1..];
      } else {
        var all := [[s[0]] + rest[0]] + rest[1..];
        assert all[1..] == rest[1..];
        assert s == [s[0]] + s[1..];
      }
    }
  }

  // ----- Names -----

  lemma SpelledSegments(name: string, before: string, p: Path, after: string)
    requires Spells(name, before, p, after)
    ensures WellFormed(p) && Segments(name) == p && (IsDirName(name) <==> after != "")
    ensures ValidEntryName(name)
  {
    hide TrimLeft, TrimRight, Join, Split;
    TilePathIff(p);
    NumericPathIff(p);
    ValidSegmentsArePlain(p);
    JoinEnds(p);
    SplitOfJoin(p);
    assert name == before + (Join(p) + after);
    TrimLeftOf(before, Join(p) + after);
    TrimRightOf(Join(p), after);
    hide NamesTile, NamesDirectory, IsTilePath, AllNumeric;
    assert p[0] in p;
  }

  lemma ValidIsSpelled(name: string) returns (before: string, after: string)
    requires ValidEntryName(name)
    ensures Spells(name, before, Segments(name), after)
  {
    hide TrimLeft, TrimRight, Join, Split, IsTilePath, AllNumeric, NamesTile;
    var p := Segments(name);
    before := TrimmedLeft(name);
    after := TrimmedRight(TrimLeft(name));
    JoinOfSplit(Trim(name));
    assert name == before + (Join(p) + after) == before + Join(p) + after;
    ValidSegmentsArePlain(p);
    JoinEnds(p);
    assert IsDirName(name) <==> after != "";
    TilePathIff(p);
    NumericPathIff(p);
  }

  /** An entry's name is accepted if and only if, slashes in front aside, it spells numeric directories with a
      slash behind or a numeric tile without, and then it stands for just that path below the staging
      directory. */
  lemma EntryNamesIff(dest: Path, name: string, target: Path)
    ensures ResolveTarget(dest, name) == Some(target) <==>
              exists before, p, after :: Spells(name, before, p, after) && target == dest + p
    ensures ResolveTarget(dest, name) == None <==> !exists before, p, after :: Spells(name, before, p, after)
  {
    hide ResolveTarget, ValidEntryName, Spells, Segments;
    TargetIsBelowDest(dest, name);
    if ValidEntryName(name) {
      var before, after := ValidIsSpelled(name);
      assert Spells(name, before, Segments(name), after);
    }
    forall before, p, after | Spells(name, before, p, after) ensures ValidEntryName(name) && Segments(name) == p {
      SpelledSegments(name, before, p, after);
    }
  }
}
