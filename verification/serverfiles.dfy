/** What the runs of the server leave on disk: a directory of its own for every version, and when a
    recorded version is safe from the index backfill, exactly. */
module ServerFiles {
  import opened Archive
  import opened Paths
  import opened Server
  import opened ServerRuns
  import opened TileIndex
  import opened Wrappers
  import I = MirrorIndex
  import M = MirrorPull
  import N = MirrorNames
  import S = Supervisor

  // ----- Continuations -----

  ghost predicate IsComplete(world: World, s: State, m: MapId, v: M.Version) {
    && m in s.maps && v in s.maps[m].recorded
    && v in s.maps[m].dirs && M.Complete(world.archives(m), v, s.maps[m].dirs[v])
  }

  /** The second run goes on from where the first ends. */
  ghost predicate Continues(world: World, states: seq<State>, steps: seq<Step>, states': seq<State>, steps': seq<Step>) {
    Run(world, states', steps') && states <= states' && steps <= steps' && |states| == |steps| + 1
  }

  /** The version is complete now and whatever happens. */
  ghost predicate StaysComplete(world: World, states: seq<State>, steps: seq<Step>, m: MapId, v: M.Version) {
    forall states', steps' | Continues(world, states, steps, states', steps') ::
      |states'| == |steps'| + 1 && IsComplete(world, states'[|steps'|], m, v)
  }

  lemma OneMore(world: World, states: seq<State>, steps: seq<Step>, step: Step)
    requires Run(world, states, steps) && |states| == |steps| + 1 && Enabled(world, states[|steps|], step)
    ensures var s := Apply(world, states[|steps|], step);
            Continues(world, states, steps, states + [s], steps + [step])
  {
    hide Enabled, Apply, Init;
    var s := Apply(world, states[|steps|], step);
    var all, moves := states + [s], steps + [step];
    forall i | 0 <= i < |moves| ensures StepAt(world, all, moves, i) {
      if i < |steps| { assert StepAt(world, states, steps, i); }
    }
  }

  // ----- Safe from the backfill -----

  ghost predicate Settled(world: World, s: State, m: MapId, v: M.Version) {
    m in s.maps && I.Settled(world.archives(m), s.maps[m], v)
  }

  lemma StepKeepsSettled(world: World, s: State, step: Step, m: MapId, v: M.Version)
    requires Inv(world, s) && Enabled(world, s, step) && Settled(world, s, m, v)
    ensures Settled(world, Apply(world, s, step), m, v)
  {
    hide S.Inv, S.Enabled, S.Apply, M.Inv, M.Enabled, M.Apply, M.EnvEnabled, M.EnvApply, M.Complete;
    hide WorksFor, Owned;
    assert M.Inv(world.archives(m), s.maps[m]);
    match step
    case Work(n, w, task) =>
      if n == m {
        SingleWorkerGivesExclusive(world, s, m);
        I.TaskKeepsSettled(world.archives(m), s.maps[m], w, task, v);
      }
    case Env(n, env) => if n == m { I.EnvKeepsSettled(world.archives(m), s.maps[m], env, v); }
    case _ =>
  }

  lemma RunStepKeepsSettled(world: World, states: seq<State>, steps: seq<Step>, i: nat, m: MapId, v: M.Version)
    requires Run(world, states, steps) && i < |steps| && Settled(world, states[i], m, v)
    ensures Settled(world, states[i + 1], m, v)
  {
    hide Enabled, Apply, Init, Settled, Inv;
    RunKeepsInv(world, states, steps, i);
    assert StepAt(world, states, steps, i);
    StepKeepsSettled(world, states[i], steps[i], m, v);
  }

  lemma {:induction false} RunKeepsSettled(world: World, states: seq<State>, steps: seq<Step>, i: nat, j: nat, m: MapId, v: M.Version)
    requires Run(world, states, steps) && i <= j < |states| && Settled(world, states[i], m, v)
    ensures Settled(world, states[j], m, v)
    decreases j
  {
    if j > i {
      hide StepAt, Init, Settled;
      RunKeepsSettled(world, states, steps, i, j - 1, m, v);
      RunStepKeepsSettled(world, states, steps, j - 1, m, v);
    }
  }

  lemma SettledStays(world: World, states: seq<State>, steps: seq<Step>, m: MapId, v: M.Version)
    requires Run(world, states, steps) && |states| == |steps| + 1 && Settled(world, states[|steps|], m, v)
    ensures StaysComplete(world, states, steps, m, v)
  {
    hide M.Complete;
    forall states', steps' | Continues(world, states, steps, states', steps')
      ensures |states'| == |steps'| + 1 && IsComplete(world, states'[|steps'|], m, v)
    {
      hide StepAt, Init;
      assert states'[|steps|] == states[|steps|];
      RunKeepsSettled(world, states', steps', |steps|, |steps'|, m, v);
    }
  }

  /** From any reachable state the backfill has a recorded version in hand in, one more step of it leaves
      the version with an index that is not its own. */
  lemma InHandIsLost(world: World, states: seq<State>, steps: seq<Step>, m: MapId, v: M.Version) returns (step: Step)
    requires Run(world, states, steps) && |states| == |steps| + 1
    requires IsComplete(world, states[|steps|], m, v) && v in states[|steps|].maps[m].backfill
    ensures Enabled(world, states[|steps|], step)
    ensures var s := Apply(world, states[|steps|], step);
            && Continues(world, states, steps, states + [s], steps + [step])
            && m in s.maps && v in s.maps[m].recorded && v in s.maps[m].dirs
            && !M.Complete(world.archives(m), v, s.maps[m].dirs[v])
  {
    hide Run, M.Complete, M.InPlace, M.TasksOk, M.AnswersRecorded, M.EnvEnabled, M.EnvApply, Owned, S.Inv, StepAt;
    var s := states[|steps|];
    RunKeepsInv(world, states, steps, |steps|);
    assert M.Inv(world.archives(m), s.maps[m]);
    assert M.InPlace(world.archives(m), s.maps[m], v);
    step := Env(m, I.NextWrite(s.maps[m], v));
    I.NextWriteHarms(world.archives(m), s.maps[m], v);
    OneMore(world, states, steps, step);
  }

  lemma InHandIsNotSafe(world: World, states: seq<State>, steps: seq<Step>, m: MapId, v: M.Version)
    requires Run(world, states, steps) && |states| == |steps| + 1
    requires IsComplete(world, states[|steps|], m, v) && v in states[|steps|].maps[m].backfill
    ensures !StaysComplete(world, states, steps, m, v)
  {
    hide Run, M.Complete, Enabled, Apply;
    var step := InHandIsLost(world, states, steps, m, v);
    var s' := Apply(world, states[|steps|], step);
    assert (states + [s'])[|steps + [step]|] == s';
  }

  /** From any reachable state on, a recorded version is complete in every continuation if and only if it
      is complete and the backfill does not have it in hand. */
  lemma StaysCompleteIff(world: World, states: seq<State>, steps: seq<Step>, m: MapId, v: M.Version)
    requires Run(world, states, steps) && |states| == |steps| + 1 && m in states[|steps|].maps
    ensures StaysComplete(world, states, steps, m, v) <==>
              IsComplete(world, states[|steps|], m, v) && v !in states[|steps|].maps[m].backfill
  {
    hide Run, M.Complete;
    var s := states[|steps|];
    if !IsComplete(world, s, m, v) {
      assert Continues(world, states, steps, states, steps);
    } else if v in s.maps[m].backfill {
      hide StaysComplete, IsComplete;
      InHandIsNotSafe(world, states, steps, m, v);
    } else {
      hide StaysComplete;
      SettledStays(world, states, steps, m, v);
    }
  }

  /** A version recorded without having been renamed under the backfill's hands is complete for good. */
  lemma RecordedVersionsStayComplete(world: World, states: seq<State>, steps: seq<Step>, m: MapId, v: M.Version)
    requires Run(world, states, steps) && |states| == |steps| + 1
    requires m in states[|steps|].maps && v in states[|steps|].maps[m].recorded
    requires forall k | 0 <= k < |steps| :: !RenamesInHand(states[k], steps[k], m, v)
    ensures StaysComplete(world, states, steps, m, v)
  {
    hide M.Complete, StepAt, Init, RenamesInHand, M.CompleteButIndex, M.HandOk, StaysComplete, M.TasksOk, M.AnswersRecorded, Owned, S.Inv;
    RunKeepsInv(world, states, steps, |steps|);
    NeverStraddled(world, states, steps, |steps|, m, v);
    assert M.Inv(world.archives(m), states[|steps|].maps[m]);
    assert M.InPlace(world.archives(m), states[|steps|].maps[m], v);
    SettledStays(world, states, steps, m, v);
  }

  lemma RenameThenRecord(arch: M.Archives, s: M.State, w: M.Wid)
    requires M.TasksOk(arch, s) && w in s.tasks && M.Enabled(arch, s, s.tasks[w], M.Rename)
    ensures var s1 := M.Apply(arch, s, w, s.tasks[w], M.Rename);
            && w in s1.tasks && (M.Enabled(arch, s1, s1.tasks[w], M.Record) ==>
                 var s2, v := M.Apply(arch, s1, w, s1.tasks[w], M.Record), s.tasks[w].queue[0];
                 && v in s2.recorded && v in s2.dirs && M.Complete(arch, v, s2.dirs[v])
                 && (v in s2.backfill <==> v in s.backfill && s.backfill[v].Scanning?))
  {
    hide M.Extraction, M.CompleteButIndex, M.InPlace, WithIndex, M.IsPullOrder;
    assert M.TaskOk(arch, s, s.tasks[w]);
    hide M.TasksOk, M.TaskOk;
  }

  lemma MapAfterWork(world: World, states: seq<State>, steps: seq<Step>, i: nat, m: MapId, w: S.Wid, task: M.TaskStep)
    requires Run(world, states, steps) && i < |steps| && steps[i] == Work(m, w, task)
    ensures m in states[i].maps && w in states[i].maps[m].tasks && m in states[i + 1].maps
    ensures M.Enabled(world.archives(m), states[i].maps[m], states[i].maps[m].tasks[w], task)
    ensures states[i + 1].maps[m] == M.Apply(world.archives(m), states[i].maps[m], w, states[i].maps[m].tasks[w], task)
  {
    hide M.Enabled, M.Apply;
    assert StepAt(world, states, steps, i);
  }

  /** A version just renamed into place and recorded is safe for good if and only if the backfill did not
      have it in hand at the rename. */
  lemma PullIsSafeIff(world: World, states: seq<State>, steps: seq<Step>, n: nat, m: MapId, w: S.Wid)
    requires Run(world, states, steps) && |steps| == n + 2 && |states| == n + 3
    requires steps[n] == Work(m, w, M.Rename) && steps[n + 1] == Work(m, w, M.Record)
    ensures m in states[n].maps && w in states[n].maps[m].tasks && M.PullingAt(states[n].maps[m].tasks[w])
    ensures var v := states[n].maps[m].tasks[w].queue[0];
            StaysComplete(world, states, steps, m, v) <==> !RenamesInHand(states[n], steps[n], m, v)
  {
    hide M.Enabled, M.Apply, M.Complete, StepAt, Init, StaysComplete, M.TasksOk, M.RecordedComplete, M.AnswersRecorded, Owned, S.Inv;
    MapAfterWork(world, states, steps, n, m, w, M.Rename);
    MapAfterWork(world, states, steps, n + 1, m, w, M.Record);
    RunKeepsInv(world, states, steps, n);
    var arch, s := world.archives(m), states[n].maps[m];
    assert M.Inv(arch, s);
    RenameThenRecord(arch, s, w);
    RenameIsOfHead(arch, s, w);
    StaysCompleteIff(world, states, steps, m, s.tasks[w].queue[0]);
  }

  lemma RenameIsOfHead(arch: M.Archives, s: M.State, w: M.Wid)
    requires w in s.tasks && M.Enabled(arch, s, s.tasks[w], M.Rename)
    ensures M.PullingAt(s.tasks[w])
  {
  }

  // ----- What a backfill leaves -----

  ghost predicate AllOwnTiles(world: World, s: State) {
    forall m | m in s.maps :: I.OwnTiles(world.archives(m), s.maps[m])
  }

  lemma StepKeepsOwnTiles(world: World, s: State, step: Step)
    requires Inv(world, s) && AllOwnTiles(world, s) && Enabled(world, s, step)
    ensures AllOwnTiles(world, Apply(world, s, step))
  {
    hide I.OwnTiles, S.Inv, S.Enabled, S.Apply, M.Inv, M.Enabled, M.Apply, M.EnvEnabled, M.EnvApply, WorksFor, Owned;
    match step
    case Sup(_) =>
    case Begin(m, w, current) => StartKeepsOwnTiles(world.archives(m), s.maps[m], w, current);
    case Work(m, w, task) =>
      assert M.Inv(world.archives(m), s.maps[m]);
      InvHasTasks(world.archives(m), s.maps[m]);
      I.TaskKeepsOwnTiles(world.archives(m), s.maps[m], w, task);
    case Env(m, env) => I.EnvKeepsOwnTiles(world.archives(m), s.maps[m], env);
    case Crash =>
      forall m | m in s.maps ensures I.OwnTiles(world.archives(m), M.Crash(s.maps[m])) {
        CrashKeepsOwnTiles(world.archives(m), s.maps[m]);
      }
  }

  lemma InvHasTasks(arch: M.Archives, s: M.State)
    requires M.Inv(arch, s)
    ensures M.TasksOk(arch, s)
  {
    hide M.TasksOk;
  }

  lemma StartKeepsOwnTiles(arch: M.Archives, s: M.State, w: M.Wid, current: string)
    requires I.OwnTiles(arch, s)
    ensures I.OwnTiles(arch, M.StartTask(s, w, current))
  {
    hide I.OfVersion;
  }

  lemma CrashKeepsOwnTiles(arch: M.Archives, s: M.State)
    requires I.OwnTiles(arch, s)
    ensures I.OwnTiles(arch, M.Crash(s))
  {
    hide I.OfVersion;
  }

  lemma {:induction false} RunKeepsOwnTiles(world: World, states: seq<State>, steps: seq<Step>, i: nat)
    requires Run(world, states, steps) && i < |states|
    ensures AllOwnTiles(world, states[i])
  {
    if i > 0 {
      hide Enabled, Apply, AllOwnTiles, Inv;
      RunKeepsOwnTiles(world, states, steps, i - 1);
      RunKeepsInv(world, states, steps, i - 1);
      assert StepAt(world, states, steps, i - 1);
      StepKeepsOwnTiles(world, states[i - 1], steps[i - 1]);
    } else {
      hide StepAt, Inv;
    }
  }

  /** In any run, a backfill that gets to the end of a recorded version leaves it complete if and only if
      its scan missed none of the version's tiles. */
  lemma BackfillLeavesCompleteIff(world: World, states: seq<State>, steps: seq<Step>, i: nat, m: MapId, v: M.Version)
    requires Run(world, states, steps) && i < |steps| && steps[i] == Env(m, M.BackfillFinish(v))
    requires m in states[i].maps && v in states[i].maps[m].recorded
    ensures v in states[i].maps[m].backfill && M.Extraction(world.archives(m), v).Ok?
    ensures IsComplete(world, states[i + 1], m, v) <==>
              states[i].maps[m].backfill[v].seen == TilesAt(M.Extraction(world.archives(m), v).value)
  {
    hide M.Complete, M.Extraction, TilesAt, M.IndexOfSeen, M.HandOk, M.Finished, Owned, S.Inv, M.TasksOk, M.AnswersRecorded;
    var arch, s := world.archives(m), states[i].maps[m];
    RunKeepsInv(world, states, steps, i);
    RunKeepsOwnTiles(world, states, steps, i);
    assert M.Inv(arch, s) && M.InPlace(arch, s, v) && I.OwnTiles(arch, s);
    assert StepAt(world, states, steps, i);
    hide Run, Inv, AllOwnTiles, M.InPlace, M.RecordedComplete;
    FinishKeepsRecorded(s, v);
    I.FinishLeavesCompleteIff(arch, s, v);
  }

  lemma FinishKeepsRecorded(s: M.State, v: M.Version)
    requires v in s.dirs && v in s.backfill
    ensures M.Finished(s, v).recorded == s.recorded && v in M.Finished(s, v).dirs
  {
  }

  // ----- One directory to a version -----

  ghost predicate AllNames(s: State) { forall m | m in s.maps :: N.NamesOk(s.maps[m]) }

  lemma StepKeepsNames(world: World, s: State, step: Step)
    requires AllNames(s) && Enabled(world, s, step)
    ensures AllNames(Apply(world, s, step))
  {
    hide N.NamesOk, S.Enabled, S.Apply, M.Enabled, M.Apply, M.EnvEnabled, M.EnvApply, WorksFor;
    match step
    case Sup(_) =>
    case Begin(m, w, current) => N.StartKeepsNames(s.maps[m], w, current);
    case Work(m, w, task) => N.TaskKeepsNames(world.archives(m), s.maps[m], w, task);
    case Env(m, env) => N.EnvKeepsNames(s.maps[m], env);
    case Crash =>
      forall m | m in s.maps ensures N.NamesOk(M.Crash(s.maps[m])) {
        N.CrashKeepsNames(s.maps[m]);
      }
  }

  lemma {:induction false} RunKeepsNames(world: World, states: seq<State>, steps: seq<Step>, i: nat)
    requires Run(world, states, steps) && i < |states|
    ensures AllNames(states[i])
  {
    if i > 0 {
      hide Enabled, Apply, AllNames;
      RunKeepsNames(world, states, steps, i - 1);
      assert StepAt(world, states, steps, i - 1);
      StepKeepsNames(world, states[i - 1], steps[i - 1]);
    } else {
      hide StepAt;
      forall m | m in states[0].maps ensures N.NamesOk(states[0].maps[m]) { InitNames(states[0].maps[m]); }
    }
  }

  lemma InitNames(s: M.State)
    requires M.Init(s)
    ensures N.NamesOk(s)
  {
  }

  /** In every run, each version that is listed, recorded or on disk names a directory right below its
      map's, wherever that is, and no two of them the same. */
  lemma VersionsHaveTheirOwnDirectories(world: World, states: seq<State>, steps: seq<Step>, i: nat, m: MapId, base: Path, v: M.Version, u: M.Version)
    requires Run(world, states, steps) && i < |states| && m in states[i].maps
    requires var s := states[i].maps[m]; {v, u} <= s.listed.Keys + s.recorded.Keys + s.dirs.Keys
    ensures Clean(base, Split(v)) == base + [v]
    ensures v != u ==> Clean(base, Split(v)) != Clean(base, Split(u))
  {
    hide StepAt, Init;
    RunKeepsNames(world, states, steps, i);
    assert v in {v, u} && u in {v, u};
    N.DirectoryOfNumeral(base, v);
    N.DirectoryOfNumeral(base, u);
    assert v != u ==> (base + [v])[|base|] != (base + [u])[|base|];
  }
}
