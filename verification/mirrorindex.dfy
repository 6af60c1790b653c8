/** The index of a mirrored version while the backfill is about: when a recorded version is safe from it,
    and what a backfill that gets to the end leaves. */
module MirrorIndex {
  import opened Archive
  import opened IndexFile
  import opened MirrorPull
  import opened Numerals
  import opened Paths
  import opened TileIndex
  import opened Wrappers

  // ----- Safe from the backfill -----

  ghost predicate Settled(arch: Archives, s: State, v: Version) {
    v in s.recorded && v in s.dirs && Complete(arch, v, s.dirs[v]) && v !in s.backfill
  }

  lemma RecordStays(arch: Archives, s: State, w: Wid, v: Version)
    requires w in s.tasks && Enabled(arch, s, s.tasks[w], Record) && Settled(arch, s, v)
    ensures Settled(arch, Apply(arch, s, w, s.tasks[w], Record), v)
  {
    hide Complete;
  }

  /** No sync task touches a recorded version. */
  lemma TaskKeepsSettled(arch: Archives, s: State, w: Wid, step: TaskStep, v: Version)
    requires Inv(arch, s) && Exclusive(s) && w in s.tasks && Enabled(arch, s, s.tasks[w], step) && Settled(arch, s, v)
    ensures Settled(arch, Apply(arch, s, w, s.tasks[w], step), v)
  {
    hide Inv, Apply, Enabled, Complete, TaskOk;
    if step == Record {
      RecordStays(arch, s, w, v);
    } else {
      TaskStepKeepsRest(arch, s, w, step);
    }
  }

  lemma RequestKeepsDisk(s: State, step: EnvStep)
    requires EnvEnabled(s, step) && !IsBackfill(step)
    ensures var s' := EnvApply(s, step);
            s'.recorded == s.recorded && s'.dirs == s.dirs && s'.backfill == s.backfill
  {
  }

  /** And the backfill takes up no version that has its index. */
  lemma EnvKeepsSettled(arch: Archives, s: State, step: EnvStep, v: Version)
    requires EnvEnabled(s, step) && Settled(arch, s, v)
    ensures Settled(arch, EnvApply(s, step), v)
  {
    hide EnvEnabled, EnvApply, Extraction, WithIndex, HandOk;
    if IsBackfill(step) {
      BackfillTouches(s, step);
      CompleteHasItsIndex(arch, v, s.dirs[v]);
    } else {
      RequestKeepsDisk(s, step);
    }
  }

  lemma CrashKeepsSettled(arch: Archives, s: State, v: Version)
    requires Settled(arch, s, v)
    ensures Settled(arch, Crash(s), v)
  {
    hide Complete;
  }

  /** A version the backfill has in hand is one step from an index that is not its own: opening the file
      empties it, and what is being written is longer than what is there. */
  function NextWrite(s: State, v: Version): EnvStep
    requires v in s.backfill
  {
    if s.backfill[v].Scanning? then BackfillOpen(v) else BackfillFinish(v)
  }

  lemma NextWriteHarms(arch: Archives, s: State, v: Version)
    requires InPlace(arch, s, v) && Complete(arch, v, s.dirs[v]) && v in s.backfill
    ensures EnvEnabled(s, NextWrite(s, v))
    ensures var s' := EnvApply(s, NextWrite(s, v));
            v in s'.dirs && !Complete(arch, v, s'.dirs[v]) && s'.recorded == s.recorded
  {
    hide Complete, Extraction, IndexOfSeen, IndexOf, EncodeIndex;
    var t, own := s.dirs[v], EncodeIndex(IndexOf(Extraction(arch, v).value));
    var index := if s.backfill[v].Scanning? then [] else IndexOfSeen(s.backfill[v].seen);
    BackfillHarmsIff(arch, v, t, index);
    BackfillHarmsIff(arch, v, t, t.files[INDEX_PATH]);
    assert Reindexed(t, t.files[INDEX_PATH]) == t;
    IndexIsNotBlank(IndexOf(Extraction(arch, v).value));
  }

  // ----- What the backfill sees -----

  ghost predicate OfVersion(arch: Archives, v: Version, tiles: set<Path>) {
    Extraction(arch, v).Ok? && tiles <= TilesAt(Extraction(arch, v).value)
  }

  /** Directories hold tiles of their own version only, and so the backfill sees no others. */
  ghost predicate OwnTiles(arch: Archives, s: State) {
    && (forall v | v in s.dirs :: OfVersion(arch, v, TilesAt(s.dirs[v])))
    && (forall v | v in s.backfill :: OfVersion(arch, v, s.backfill[v].seen))
  }

  lemma PartHasFewerTiles(t: Tree, of: Tree)
    requires IsPart(t, of)
    ensures TilesAt(t) <= TilesAt(of)
  {
  }

  lemma CompleteHasOwnTiles(arch: Archives, v: Version, t: Tree)
    requires Complete(arch, v, t)
    ensures OfVersion(arch, v, TilesAt(t))
  {
    hide Extract, EncodeIndex, IndexOf, TilesAt;
    IndexChangesNoTile(Extraction(arch, v).value, EncodeIndex(IndexOf(Extraction(arch, v).value)));
  }

  /** What an operation may do to the directories: drop some, drop parts of them, put a complete one in
      place. */
  ghost predicate OnlyOwn(arch: Archives, s: State, s': State) {
    && (forall v | v in s'.backfill :: v in s.backfill && s'.backfill[v] == s.backfill[v])
    && (forall v | v in s'.dirs :: Complete(arch, v, s'.dirs[v]) || (v in s.dirs && IsPart(s'.dirs[v], s.dirs[v])))
  }

  lemma TaskIsOnlyOwn(arch: Archives, s: State, w: Wid, step: TaskStep)
    requires TasksOk(arch, s) && w in s.tasks && Enabled(arch, s, s.tasks[w], step)
    ensures OnlyOwn(arch, s, Apply(arch, s, w, s.tasks[w], step))
  {
    hide Complete, CompleteButIndex, Extract, WithIndex, IsPullOrder, InPlace;
    assert TaskOk(arch, s, s.tasks[w]);
    hide TasksOk;
  }

  lemma TaskKeepsOwnTiles(arch: Archives, s: State, w: Wid, step: TaskStep)
    requires TasksOk(arch, s) && OwnTiles(arch, s) && w in s.tasks && Enabled(arch, s, s.tasks[w], step)
    ensures OwnTiles(arch, Apply(arch, s, w, s.tasks[w], step))
  {
    hide TasksOk, Apply, Enabled, OfVersion, TilesAt, IsPart, Complete, Extraction;
    TaskIsOnlyOwn(arch, s, w, step);
    var s' := Apply(arch, s, w, s.tasks[w], step);
    forall v | v in s'.dirs ensures OfVersion(arch, v, TilesAt(s'.dirs[v])) {
      if Complete(arch, v, s'.dirs[v]) {
        CompleteHasOwnTiles(arch, v, s'.dirs[v]);
      } else {
        PartHasFewerTiles(s'.dirs[v], s.dirs[v]);
        FewerOfVersion(arch, v, TilesAt(s'.dirs[v]), TilesAt(s.dirs[v]));
      }
    }
  }

  lemma FewerOfVersion(arch: Archives, v: Version, some: set<Path>, tiles: set<Path>)
    requires OfVersion(arch, v, tiles) && some <= tiles
    ensures OfVersion(arch, v, some)
  {
  }

  lemma ScanSeesOwn(arch: Archives, s: State, step: EnvStep, v: Version)
    requires OwnTiles(arch, s) && EnvEnabled(s, step) && IsBackfill(step)
    requires v in EnvApply(s, step).backfill
    ensures v in s.dirs || v in s.backfill
    ensures OfVersion(arch, v, EnvApply(s, step).backfill[v].seen)
  {
    hide TilesAt, IndexOfSeen, Extraction, Reindexed;
  }

  lemma EnvKeepsOwnTiles(arch: Archives, s: State, step: EnvStep)
    requires OwnTiles(arch, s) && EnvEnabled(s, step)
    ensures OwnTiles(arch, EnvApply(s, step))
  {
    hide EnvEnabled, EnvApply, OfVersion, TilesAt, HandOk;
    var s' := EnvApply(s, step);
    if IsBackfill(step) {
      BackfillTouches(s, step);
      forall v | v in s'.dirs ensures OfVersion(arch, v, TilesAt(s'.dirs[v])) {
        if s'.dirs[v] != s.dirs[v] { IndexChangesNoTile(s.dirs[v], s'.dirs[v].files[INDEX_PATH]); }
      }
      forall v | v in s'.backfill ensures OfVersion(arch, v, s'.backfill[v].seen) { ScanSeesOwn(arch, s, step, v); }
    } else {
      RequestKeepsDisk(s, step);
    }
  }

  /** A backfill that gets to the end leaves the version complete exactly if its scan missed no tile. */
  lemma FinishLeavesCompleteIff(arch: Archives, s: State, v: Version)
    requires v in s.dirs && CompleteButIndex(arch, v, s.dirs[v])
    requires v in s.backfill && OfVersion(arch, v, s.backfill[v].seen)
    ensures Complete(arch, v, Finished(s, v).dirs[v]) <==> s.backfill[v].seen == TilesAt(Extraction(arch, v).value)
  {
    hide Complete, Extraction, EncodeIndex, SortedCoords, TilesAt;
    var seen := s.backfill[v].seen;
    BackfillHarmsIff(arch, v, s.dirs[v], IndexOfSeen(seen));
    IndexOfSomeIff(seen, TilesAt(Extraction(arch, v).value));
  }

  // ----- What the backfill is for -----

  ghost predicate EnvTakes(s: State, step: EnvStep, s': State) { EnvEnabled(s, step) && s' == EnvApply(s, step) }

  /** From s these steps, one after the other, lead to s'. */
  ghost predicate EnvLeads(s: State, steps: seq<EnvStep>, s': State)
    decreases |steps|
  {
    if steps == [] then s' == s
    else exists mid :: EnvTakes(s, steps[0], mid) && EnvLeads(mid, steps[1..], s')
  }

  lemma {:induction false} ScanSeesAll(s: State, v: Version, seen: set<Path>) returns (steps: seq<EnvStep>)
    requires v in s.dirs && v in s.backfill && s.backfill[v] == Scanning(seen) && seen <= TilesAt(s.dirs[v])
    ensures EnvLeads(s, steps, s.(backfill := s.backfill[v := Scanning(TilesAt(s.dirs[v]))]))
    decreases TilesAt(s.dirs[v]) - seen
  {
    hide TilesAt, IndexOfSeen;
    if seen == TilesAt(s.dirs[v]) {
      steps := [];
      assert s.backfill[v := Scanning(seen)] == s.backfill;
    } else {
      var tile :| tile in TilesAt(s.dirs[v]) && tile !in seen;
      var mid := s.(backfill := s.backfill[v := Scanning(seen + {tile})]);
      assert EnvTakes(s, BackfillSee(v, tile), mid);
      var rest := ScanSeesAll(mid, v, seen + {tile});
      steps := [BackfillSee(v, tile)] + rest;
      assert steps[1..] == rest;
      var all := Scanning(TilesAt(s.dirs[v]));
      assert mid.backfill[v := all] == s.backfill[v := all];
    }
  }

  lemma {:induction false} EnvLeadsOn(s: State, steps: seq<EnvStep>, s': State, step: EnvStep, s'': State)
    requires EnvLeads(s, steps, s') && EnvTakes(s', step, s'')
    ensures EnvLeads(s, steps + [step], s'')
    decreases |steps|
  {
    hide EnvTakes;
    if steps == [] {
      assert EnvLeads(s'', [], s'') && [step][1..] == [] && [] + [step] == [step];
    } else {
      var mid :| EnvTakes(s, steps[0], mid) && EnvLeads(mid, steps[1..], s');
      EnvLeadsOn(mid, steps[1..], s', step, s'');
      assert (steps + [step])[1..] == steps[1..] + [step];
    }
  }

  lemma LeadsFrom(s: State, step: EnvStep, mid: State, rest: seq<EnvStep>, s': State)
    requires EnvTakes(s, step, mid) && EnvLeads(mid, rest, s')
    ensures EnvLeads(s, [step] + rest, s')
  {
    hide EnvTakes;
    assert ([step] + rest)[1..] == rest;
  }

  lemma StatStep(s: State, v: Version)
    requires IsNumeric(v) && v in s.dirs && INDEX_PATH !in s.dirs[v].files && v !in s.backfill
    ensures EnvTakes(s, BackfillStat(v), s.(backfill := s.backfill[v := Scanning({})]))
  {
    hide IndexOfSeen, TilesAt;
  }

  lemma OpenStep(s: State, v: Version, seen: set<Path>)
    requires v in s.dirs && v in s.backfill && s.backfill[v] == Scanning(seen)
    ensures EnvTakes(s, BackfillOpen(v), Wrote(s, v, seen, 0))
  {
    hide IndexOfSeen, TilesAt, Wrote;
  }

  lemma FinishStep(s: State, v: Version)
    requires v in s.dirs && v in s.backfill && s.backfill[v].Writing?
    ensures EnvTakes(s, BackfillFinish(v), Finished(s, v))
  {
    hide IndexOfSeen, TilesAt, Finished;
  }

  lemma WrittenWhole(t: Tree)
    ensures var index := IndexOfSeen(TilesAt(t));
            Reindexed(Reindexed(t, index[..0]), index) == WithIndex(t)
  {
    hide TilesAt, EncodeIndex, SortedCoords;
  }

  lemma OpenedAndFinished(s: State, v: Version, tiles: set<Path>)
    requires v in s.dirs && v !in s.backfill && tiles == TilesAt(s.dirs[v])
    ensures var s2 := s.(backfill := s.backfill[v := Scanning(tiles)]);
            var s3 := Wrote(s2, v, tiles, 0);
            && v in s3.dirs && v in s3.backfill && s3.backfill[v].Writing?
            && Finished(s3, v) == s.(dirs := s.dirs[v := WithIndex(s.dirs[v])])
  {
    hide TilesAt, WithIndex, IndexOfSeen, Reindexed;
    var s2 := s.(backfill := s.backfill[v := Scanning(tiles)]);
    var s3 := Wrote(s2, v, tiles, 0);
    WrittenWhole(s.dirs[v]);
    assert s3.backfill - {v} == s.backfill;
  }

  /** Undisturbed, the backfill gives a version directory without an index the index of its tiles and
      touches nothing else. */
  lemma BackfillCompletes(s: State, v: Version) returns (steps: seq<EnvStep>)
    requires IsNumeric(v) && v in s.dirs && INDEX_PATH !in s.dirs[v].files && v !in s.backfill
    ensures EnvLeads(s, steps, s.(dirs := s.dirs[v := WithIndex(s.dirs[v])]))
  {
    hide *;
    var tiles := TilesAt(s.dirs[v]);
    var s1 := s.(backfill := s.backfill[v := Scanning({})]);
    var s2 := s.(backfill := s.backfill[v := Scanning(tiles)]);
    var s3 := Wrote(s2, v, tiles, 0);
    StatStep(s, v);
    var rest := ScanSeesAll(s1, v, {});
    assert s1.backfill[v := Scanning(tiles)] == s2.backfill;
    LeadsFrom(s, BackfillStat(v), s1, rest, s2);
    OpenStep(s2, v, tiles);
    OpenedAndFinished(s, v, tiles);
    FinishStep(s3, v);
    EnvLeadsOn(s, [BackfillStat(v)] + rest, s2, BackfillOpen(v), s3);
    EnvLeadsOn(s, [BackfillStat(v)] + rest + [BackfillOpen(v)], s3, BackfillFinish(v), s.(dirs := s.dirs[v := WithIndex(s.dirs[v])]));
    steps := [BackfillStat(v)] + rest + [BackfillOpen(v)] + [BackfillFinish(v)];
  }

  /** An answer read and stored is what the cache holds until it is dropped. */
  lemma CachesAreFilledAndDropped(s: State, alias: string)
    requires alias in s.aliases
    ensures var read := EnvApply(s, ReadCurrent);
            EnvEnabled(read, FillCurrent(s.current)) && EnvApply(read, FillCurrent(s.current)).currentCache == Some(s.current)
    ensures var read, v := EnvApply(s, ReadAlias(alias)), s.aliases[alias];
            EnvEnabled(read, FillAlias(alias, v)) && EnvApply(read, FillAlias(alias, v)).aliasCache == s.aliasCache[alias := v]
    ensures EnvApply(s, DropCurrent).currentCache == None && alias !in EnvApply(s, DropAlias(alias)).aliasCache
  {
    hide IndexOfSeen, TilesAt;
  }
}
