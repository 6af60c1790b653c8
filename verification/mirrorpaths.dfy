/** Runs of one mirrored map on its own, with nothing to keep sync tasks apart: what a pull that meets no
    failure does from its check to its record, and the run on which two of them lose a directory. */
module MirrorPaths {
  import opened Archive
  import opened MirrorPull
  import opened Numerals
  import opened TileIndex
  import opened Wrappers

  // ----- The operations of one task in a row -----

  ghost predicate Takes(arch: Archives, s: State, w: Wid, step: TaskStep, s': State) {
    w in s.tasks && Enabled(arch, s, s.tasks[w], step) && s' == Apply(arch, s, w, s.tasks[w], step)
  }

  /** Task w takes the steps one after the other, through the given states. */
  ghost predicate Path(arch: Archives, w: Wid, states: seq<State>, steps: seq<TaskStep>) {
    && |states| == |steps| + 1
    && forall i | 0 <= i < |steps| :: Takes(arch, states[i], w, steps[i], states[i + 1])
  }

  function Listed(s: State, w: Wid, v: Version): State {
    With(s, w, Pulling("", s.listed, [v], AtCheck))
  }

  predicate Unlisted(s: State, w: Wid, v: Version, at: Time) {
    w in s.tasks && s.tasks[w] == Listing("") && s.listed == map[v := at] && v !in s.recorded
  }

  lemma CheckStep(arch: Archives, s: State, w: Wid, v: Version, at: Time)
    requires Unlisted(s, w, v, at)
    ensures Takes(arch, s, w, ListVersions, With(s, w, Checking("", s.listed, map[])))
    ensures Takes(arch, With(s, w, Checking("", s.listed, map[])), w, CheckLocal(v), With(s, w, Checking("", s.listed, map[v := false])))
  {
    hide Extract, WithIndex, IsPullOrder;
  }

  lemma PlanStep(arch: Archives, s: State, w: Wid, v: Version, at: Time)
    requires Unlisted(s, w, v, at)
    ensures Takes(arch, With(s, w, Checking("", s.listed, map[v := false])), w, Plan([v]), Listed(s, w, v))
  {
    hide Extract, WithIndex;
    var has := map[v := false];
    assert has.Keys == {v} == s.listed.Keys;
    assert IsPullOrder(has, s.listed, [v]);
  }

  /** From the version list to the first pull, when v is all there is and is not here yet. */
  lemma ListPath(arch: Archives, s: State, w: Wid, v: Version, at: Time) returns (states: seq<State>, steps: seq<TaskStep>)
    requires Unlisted(s, w, v, at)
    ensures Path(arch, w, states, steps) && |states| == |steps| + 1
    ensures states[0] == s && states[|steps|] == Listed(s, w, v)
  {
    CheckStep(arch, s, w, v, at);
    PlanStep(arch, s, w, v, at);
    hide Takes;
    states := [s, With(s, w, Checking("", s.listed, map[])), With(s, w, Checking("", s.listed, map[v := false])), Listed(s, w, v)];
    steps := [ListVersions, CheckLocal(v), Plan([v])];
  }

  predicate AboutToPull(s: State, w: Wid, v: Version) {
    && w in s.tasks && s.tasks[w].Pulling? && s.tasks[w].queue != [] && s.tasks[w].queue[0] == v
    && s.tasks[w].pull == AtCheck && v in s.tasks[w].snap && v !in s.recorded
  }

  function At(s: State, w: Wid, pull: Pull): State
    requires w in s.tasks && s.tasks[w].Pulling?
  {
    With(s, w, s.tasks[w].(pull := pull))
  }

  function Holding(s: State, w: Wid, pull: Pull, sid: Sid, t: Tree): State
    requires w in s.tasks && s.tasks[w].Pulling?
  {
    At(s, w, pull).(staging := s.staging[sid := t])
  }

  lemma DownloadSteps(arch: Archives, s: State, w: Wid, v: Version, sid: Sid)
    requires AboutToPull(s, w, v) && sid !in s.staging
    ensures Takes(arch, s, w, CheckRecorded, At(s, w, Downloading))
    ensures Takes(arch, At(s, w, Downloading), w, Download(sid), Holding(s, w, Extracting(sid), sid, EMPTY_TREE))
  {
    hide Extract, WithIndex, IsPullOrder;
  }

  lemma ExtractStep(arch: Archives, s: State, w: Wid, v: Version, sid: Sid, t: Tree)
    requires AboutToPull(s, w, v) && sid !in s.staging && Extraction(arch, v) == Ok(t)
    ensures Takes(arch, Holding(s, w, Extracting(sid), sid, EMPTY_TREE), w, FinishExtract, Holding(s, w, Extracted(sid), sid, t))
  {
    hide Extract, WithIndex, IsPullOrder;
  }

  lemma IndexSteps(arch: Archives, s: State, w: Wid, v: Version, sid: Sid, t: Tree)
    requires AboutToPull(s, w, v)
    ensures Takes(arch, Holding(s, w, Extracted(sid), sid, t), w, WriteIndex, Holding(s, w, Indexed(sid), sid, WithIndex(t)))
    ensures Takes(arch, Holding(s, w, Indexed(sid), sid, WithIndex(t)), w, StartClear, Holding(s, w, Clearing(sid), sid, WithIndex(t)))
  {
    hide Extract, WithIndex, IsPullOrder;
  }

  /** Download, extraction and index, up to the point where the old directory is cleared. */
  lemma StagePath(arch: Archives, s: State, w: Wid, v: Version, sid: Sid, t: Tree)
    returns (states: seq<State>, steps: seq<TaskStep>)
    requires AboutToPull(s, w, v) && sid !in s.staging && Extraction(arch, v) == Ok(t)
    ensures Path(arch, w, states, steps) && |states| == |steps| + 1
    ensures states[0] == s && states[|steps|] == Holding(s, w, Clearing(sid), sid, WithIndex(t))
  {
    hide Extract, WithIndex;
    DownloadSteps(arch, s, w, v, sid);
    ExtractStep(arch, s, w, v, sid, t);
    IndexSteps(arch, s, w, v, sid, t);
    hide Takes, Holding;
    states := [
      s, At(s, w, Downloading), Holding(s, w, Extracting(sid), sid, EMPTY_TREE), Holding(s, w, Extracted(sid), sid, t),
      Holding(s, w, Indexed(sid), sid, WithIndex(t)), Holding(s, w, Clearing(sid), sid, WithIndex(t))];
    steps := [CheckRecorded, Download(sid), FinishExtract, WriteIndex, StartClear];
  }

  function Placed(s: State, w: Wid, v: Version, sid: Sid): State
    requires w in s.tasks && s.tasks[w].Pulling? && sid in s.staging
  {
    At(s, w, Renamed).(dirs := s.dirs[v := s.staging[sid]], staging := s.staging - {sid}, backfill := Detached(s.backfill, v),
                       straddled := s.straddled - {v} + {v} * Detached(s.backfill, v).Keys)
  }

  /** The old directory goes and the staged one takes its place. */
  lemma PlacePath(arch: Archives, s: State, w: Wid, v: Version, sid: Sid) returns (states: seq<State>, steps: seq<TaskStep>)
    requires w in s.tasks && s.tasks[w].Pulling? && s.tasks[w].queue != [] && s.tasks[w].queue[0] == v
    requires s.tasks[w].pull == Clearing(sid) && sid in s.staging
    ensures Path(arch, w, states, steps) && |states| == |steps| + 1
    ensures states[0] == s && states[|steps|] == Placed(s, w, v, sid)
  {
    hide Extract, WithIndex, IsPullOrder;
    var s1 := At(s, w, Cleared(sid)).(dirs := s.dirs - {v});
    var s2 := Placed(s, w, v, sid);
    states, steps := [s, s1, s2], [FinishClear, Rename];
    assert Takes(arch, s, w, FinishClear, s1);
    assert s1.dirs[v := s.staging[sid]] == s.dirs[v := s.staging[sid]];
    assert Takes(arch, s1, w, Rename, s2);
  }

  lemma Join(arch: Archives, w: Wid, states: seq<State>, steps: seq<TaskStep>, states': seq<State>, steps': seq<TaskStep>)
    requires Path(arch, w, states, steps) && Path(arch, w, states', steps') && states[|steps|] == states'[0]
    ensures |states| == |steps| + 1 && |states'| == |steps'| + 1
    ensures Path(arch, w, states + states'[1..], steps + steps')
  {
    hide Takes;
    var all, moves := states + states'[1..], steps + steps';
    forall i | 0 <= i < |moves| ensures Takes(arch, all[i], w, moves[i], all[i + 1]) {
      if i < |steps| {
        assert Takes(arch, states[i], w, steps[i], states[i + 1]);
      } else {
        assert all[i] == states'[i - |steps|];
        assert Takes(arch, states'[i - |steps|], w, steps'[i - |steps|], states'[i - |steps| + 1]);
      }
    }
  }

  /** What a pull that meets no failure amounts to: the directory is the extracted archive with its
      index, the version is recorded with the listed time, and the task goes on to the next one. */
  function Pulled(s: State, w: Wid, v: Version, t: Tree): State
    requires AboutToPull(s, w, v)
  {
    var task := s.tasks[w];
    With(s, w, Pulling(task.remoteCurrent, task.snap, task.queue[1..], AtCheck))
    .(dirs := s.dirs[v := t], recorded := s.recorded[v := task.snap[v]], backfill := Detached(s.backfill, v),
      straddled := s.straddled - {v} + {v} * Detached(s.backfill, v).Keys)
  }

  lemma PullPath(arch: Archives, s: State, w: Wid, v: Version, sid: Sid, t: Tree)
    returns (states: seq<State>, steps: seq<TaskStep>)
    requires AboutToPull(s, w, v) && sid !in s.staging && Extraction(arch, v) == Ok(t)
    ensures Path(arch, w, states, steps) && |states| == |steps| + 1
    ensures states[0] == s && states[|steps|] == Pulled(s, w, v, WithIndex(t))
  {
    hide Extract, WithIndex, IsPullOrder, Path;
    states, steps := StagePath(arch, s, w, v, sid, t);
    var staged := Holding(s, w, Clearing(sid), sid, WithIndex(t));
    var states', steps' := PlacePath(arch, staged, w, v, sid);
    Join(arch, w, states, steps, states', steps');
    states, steps := states + states'[1..], steps + steps';
    var placed, done := Placed(staged, w, v, sid), Pulled(s, w, v, WithIndex(t));
    RecordStep(arch, s, w, v, sid, WithIndex(t));
    OneStep(arch, w, placed, Record, done);
    Join(arch, w, states, steps, [placed, done], [Record]);
    states, steps := states + [placed, done][1..], steps + [Record];
  }

  lemma RecordStep(arch: Archives, s: State, w: Wid, v: Version, sid: Sid, t: Tree)
    requires AboutToPull(s, w, v) && sid !in s.staging
    ensures Takes(arch, Placed(Holding(s, w, Clearing(sid), sid, t), w, v, sid), w, Record, Pulled(s, w, v, t))
  {
    hide Extract, WithIndex, IsPullOrder;
    assert (s.staging[sid := t]) - {sid} == s.staging;
  }

  lemma OneStep(arch: Archives, w: Wid, s: State, step: TaskStep, s': State)
    requires Takes(arch, s, w, step, s')
    ensures Path(arch, w, [s, s'], [step])
  {
    hide Takes;
  }

  // ----- Runs of the map alone -----

  datatype Move = Start(w: Wid, remoteCurrent: string) | Task(w: Wid, step: TaskStep) | Env(env: EnvStep) | Die

  ghost predicate Leads(arch: Archives, s: State, move: Move, s': State) {
    match move
    case Start(w, current) => w !in s.tasks && s' == StartTask(s, w, current)
    case Task(w, step) => Takes(arch, s, w, step, s')
    case Env(env) => EnvEnabled(s, env) && s' == EnvApply(s, env)
    case Die => s' == Crash(s)
  }

  ghost predicate Run(arch: Archives, states: seq<State>, moves: seq<Move>) {
    && |states| == |moves| + 1 && Init(states[0])
    && forall i | 0 <= i < |moves| :: Leads(arch, states[i], moves[i], states[i + 1])
  }

  lemma OneMore(arch: Archives, states: seq<State>, moves: seq<Move>, move: Move, s: State)
    requires Run(arch, states, moves) && Leads(arch, states[|moves|], move, s)
    ensures |states| == |moves| + 1 && Run(arch, states + [s], moves + [move])
  {
    hide Leads, Init;
  }

  lemma {:induction false} Follow(arch: Archives, states: seq<State>, moves: seq<Move>, w: Wid, path: seq<State>, steps: seq<TaskStep>)
    returns (states': seq<State>, moves': seq<Move>)
    requires Run(arch, states, moves) && Path(arch, w, path, steps) && path[0] == states[|moves|]
    ensures Run(arch, states', moves') && |states'| == |moves'| + 1 && states'[|moves'|] == path[|steps|]
    decreases |steps|
  {
    hide Takes;
    if steps == [] {
      states', moves' := states, moves;
    } else {
      var n := |steps| - 1;
      assert Path(arch, w, path[..n + 1], steps[..n]);
      states', moves' := Follow(arch, states, moves, w, path[..n + 1], steps[..n]);
      assert Takes(arch, path[n], w, steps[n], path[n + 1]);
      OneMore(arch, states', moves', Task(w, steps[n]), path[n + 1]);
      states', moves' := states' + [path[n + 1]], moves' + [Task(w, steps[n])];
    }
  }

  const FRESH := State(map[], map[], "", map[], map[], map[], map[], None, map[], {}, map[], {})

  /** A fresh map, one published version, two tasks at its pull. */
  lemma TwoTasksStart(arch: Archives, v: Version, at: Time) returns (states: seq<State>, moves: seq<Move>)
    requires IsNumeric(v)
    ensures Run(arch, states, moves) && |states| == |moves| + 1
    ensures states[|moves|] == FRESH.(listed := map[v := at], tasks := map[0 := Listing(""), 1 := Listing("")])
  {
    var s1 := FRESH.(listed := map[v := at]);
    var s2 := s1.(tasks := map[0 := Listing("")]);
    var s3 := s1.(tasks := map[0 := Listing(""), 1 := Listing("")]);
    states, moves := [FRESH], [];
    OneMore(arch, states, moves, Env(Publish(v, at)), s1);
    OneMore(arch, states + [s1], moves + [Env(Publish(v, at))], Start(0, ""), s2);
    OneMore(arch, states + [s1] + [s2], moves + [Env(Publish(v, at))] + [Start(0, "")], Start(1, ""), s3);
    states := states + [s1] + [s2] + [s3];
    moves := moves + [Env(Publish(v, at))] + [Start(0, "")] + [Start(1, "")];
  }

  /** Exclusivity is needed. A run from a fresh map on which two tasks pull the same version: the first
      renames and records it while the second is about to clear, and then the second clears. */
  lemma TwoPullersLoseADirectory(arch: Archives, v: Version, at: Time) returns (states: seq<State>, moves: seq<Move>)
    requires Extraction(arch, v).Ok? && IsNumeric(v)
    ensures Run(arch, states, moves) && |states| == |moves| + 1
    ensures v in states[|moves|].recorded && v !in states[|moves|].dirs
  {
    hide Extract, WithIndex, Path, Run, Leads, Takes, Apply, Enabled;
    var t := Extraction(arch, v).value;
    states, moves := TwoTasksStart(arch, v, at);
    var s := states[|moves|];
    var p, q := ListPath(arch, s, 0, v, at);
    states, moves := Follow(arch, states, moves, 0, p, q);
    s := states[|moves|];
    p, q := ListPath(arch, s, 1, v, at);
    states, moves := Follow(arch, states, moves, 1, p, q);
    s := states[|moves|];
    p, q := StagePath(arch, s, 0, v, 7, t);
    states, moves := Follow(arch, states, moves, 0, p, q);
    s := states[|moves|];
    p, q := StagePath(arch, s, 1, v, 8, t);
    states, moves := Follow(arch, states, moves, 1, p, q);
    s := states[|moves|];
    p, q := PlacePath(arch, s, 0, v, 7);
    states, moves := Follow(arch, states, moves, 0, p, q);
    s := states[|moves|];
    RecordThenClear(arch, s, v);
    var s1 := Apply(arch, s, 0, s.tasks[0], Record);
    OneMore(arch, states, moves, Task(0, Record), s1);
    var s2 := Apply(arch, s1, 1, s1.tasks[1], FinishClear);
    OneMore(arch, states + [s1], moves + [Task(0, Record)], Task(1, FinishClear), s2);
    states, moves := states + [s1] + [s2], moves + [Task(0, Record)] + [Task(1, FinishClear)];
  }

  lemma RecordThenClear(arch: Archives, s: State, v: Version)
    requires 0 in s.tasks && 1 in s.tasks && PullingAt(s.tasks[0]) && PullingAt(s.tasks[1])
    requires s.tasks[0].pull == Renamed && s.tasks[0].queue == [v] && v in s.tasks[0].snap
    requires s.tasks[1].pull.Clearing? && s.tasks[1].queue == [v]
    ensures Enabled(arch, s, s.tasks[0], Record)
    ensures var s1 := Apply(arch, s, 0, s.tasks[0], Record);
            && Leads(arch, s, Task(0, Record), s1)
            && 1 in s1.tasks && Enabled(arch, s1, s1.tasks[1], FinishClear)
            && var s2 := Apply(arch, s1, 1, s1.tasks[1], FinishClear);
               Leads(arch, s1, Task(1, FinishClear), s2) && v in s2.recorded && v !in s2.dirs
  {
    hide Extract, WithIndex, IsPullOrder;
  }
}
