/** Runs of the server that show where its promises end: two workers of one remote after shutdown, and a
    recorded version with a wrong index. */
module ServerExamples {
  import opened Archive
  import opened Server
  import opened ServerFiles
  import opened ServerRuns
  import opened TileIndex
  import opened Wrappers
  import Numerals
  import M = MirrorPull
  import P = MirrorPaths
  import S = Supervisor

  /** One more step of the manager or a worker. */
  lemma SupStep(world: World, states: seq<State>, steps: seq<Step>, step: S.Step, sup: S.State)
    returns (states': seq<State>, steps': seq<Step>)
    requires Run(world, states, steps) && |states| == |steps| + 1 && !step.EndPass?
    requires S.Enabled(states[|steps|].sup, step) && sup == S.Apply(states[|steps|].sup, step)
    ensures Run(world, states', steps') && |states'| == |steps'| + 1
    ensures states'[|steps'|] == states[|steps|].(sup := sup)
  {
    hide S.Enabled, S.Apply, M.Enabled, M.Apply, Run;
    var s := states[|steps|].(sup := sup);
    OneMore(world, states, steps, Sup(step));
    states', steps' := states + [s], steps + [Sup(step)];
    RunLength(world, states', steps');
  }

  lemma RunLength(world: World, states: seq<State>, steps: seq<Step>)
    requires Run(world, states, steps)
    ensures |states| == |steps| + 1
  {
    hide StepAt, Init;
  }

  /** One more step that touches only map m. */
  lemma MapStep(world: World, states: seq<State>, steps: seq<Step>, step: Step, m: MapId, ms: M.State)
    returns (states': seq<State>, steps': seq<Step>)
    requires Run(world, states, steps) && |states| == |steps| + 1 && m in states[|steps|].maps
    requires Enabled(world, states[|steps|], step) && Apply(world, states[|steps|], step) == SetMap(states[|steps|], m, ms)
    ensures Run(world, states', steps') && |states'| == |steps'| + 1
    ensures states'[|steps'|] == SetMap(states[|steps|], m, ms)
  {
    hide Enabled, Apply, Run;
    var s := SetMap(states[|steps|], m, ms);
    OneMore(world, states, steps, step);
    states', steps' := states + [s], steps + [step];
    RunLength(world, states', steps');
  }

  /** A sync task goes through its operations while nothing else happens. */
  lemma {:induction false} Follow(world: World, states: seq<State>, steps: seq<Step>, m: MapId, w: S.Wid, path: seq<M.State>, tasks: seq<M.TaskStep>)
    returns (states': seq<State>, steps': seq<Step>)
    requires Run(world, states, steps) && |states| == |steps| + 1
    requires |path| == |tasks| + 1 && P.Path(world.archives(m), w, path, tasks)
    requires m in states[|steps|].maps && states[|steps|].maps[m] == path[0]
    ensures Run(world, states', steps') && |states'| == |steps'| + 1
    ensures states'[|steps'|] == SetMap(states[|steps|], m, path[|tasks|])
    decreases |tasks|
  {
    hide Run, M.Enabled, M.Apply;
    if tasks == [] {
      states', steps' := states, steps;
    } else {
      var n := |tasks| - 1;
      assert P.Path(world.archives(m), w, path[..n + 1], tasks[..n]);
      states', steps' := Follow(world, states, steps, m, w, path[..n + 1], tasks[..n]);
      assert P.Takes(world.archives(m), path[n], w, tasks[n], path[n + 1]);
      states', steps' := MapStep(world, states', steps', Work(m, w, tasks[n]), m, path[n + 1]);
    }
  }

  // ----- One worker in its pass -----

  const NO_WORKERS: map<S.RemoteId, S.Handle> := map[]
  const NO_ROUTINES: map<S.Wid, S.Routine> := map[]
  const NO_RESTARTS: map<S.RemoteId, S.Remote> := map[]

  /** A reconciliation of a table with one enabled row, and nothing to stop. */
  function Reconciling(id: S.RemoteId, row: S.Remote, rec: S.Reconciler, routines: map<S.Wid, S.Routine>, shutdown: bool): S.State {
    S.State(map[id := row], NO_WORKERS, routines, rec, shutdown, false, {})
  }

  lemma ReconcileSteps(id: S.RemoteId, row: S.Remote, routines: map<S.Wid, S.Routine>, shutdown: bool)
    ensures var listed := Reconciling(id, row, S.Listed(map[id := row]), routines, shutdown);
            var scanning := Reconciling(id, row, S.Scanning(map[id := row], {}, {}, NO_RESTARTS), routines, shutdown);
            var waiting := Reconciling(id, row, S.Waiting(map[id := row], {}, NO_RESTARTS), routines, shutdown);
            var starting := Reconciling(id, row, S.Starting(map[id := row], NO_RESTARTS, {id}), routines, shutdown);
            && S.Enabled(listed, S.LockScan) && S.Apply(listed, S.LockScan) == scanning
            && S.Enabled(scanning, S.UnlockScan) && S.Apply(scanning, S.UnlockScan) == waiting
            && S.Enabled(waiting, S.LockStart) && S.Apply(waiting, S.LockStart) == starting
  {
    assert NO_WORKERS.Keys == {} && map[id := row].Keys == {id};
  }

  /** From a listed table to the start of its one worker. */
  lemma Reconcile(world: World, states: seq<State>, steps: seq<Step>, id: S.RemoteId, row: S.Remote, routines: map<S.Wid, S.Routine>, shutdown: bool)
    returns (states': seq<State>, steps': seq<Step>)
    requires Run(world, states, steps) && |states| == |steps| + 1
    requires states[|steps|].sup == Reconciling(id, row, S.Listed(map[id := row]), routines, shutdown)
    ensures Run(world, states', steps') && |states'| == |steps'| + 1
    ensures states'[|steps'|] == states[|steps|].(sup := Reconciling(id, row, S.Starting(map[id := row], NO_RESTARTS, {id}), routines, shutdown))
  {
    hide Run, S.Enabled, S.Apply, Reconciling;
    ReconcileSteps(id, row, routines, shutdown);
    states', steps' := SupStep(world, states, steps, S.LockScan,
                               Reconciling(id, row, S.Scanning(map[id := row], {}, {}, NO_RESTARTS), routines, shutdown));
    states', steps' := SupStep(world, states', steps', S.UnlockScan,
                               Reconciling(id, row, S.Waiting(map[id := row], {}, NO_RESTARTS), routines, shutdown));
    states', steps' := SupStep(world, states', steps', S.LockStart,
                               Reconciling(id, row, S.Starting(map[id := row], NO_RESTARTS, {id}), routines, shutdown));
  }

  function Born(id: S.RemoteId, row: S.Remote): S.Routine { S.Routine(id, row, false, S.Fresh, false, 0, 0, false) }

  function Running(id: S.RemoteId, row: S.Remote, rec: S.Reconciler, phase: S.Phase): S.State {
    S.State(map[id := row], map[id := S.Handle(0, row)], map[0 := Born(id, row).(phase := phase)], rec, false, false, {})
  }

  lemma StartSteps(id: S.RemoteId, row: S.Remote)
    requires row.enabled
    ensures var starting := Reconciling(id, row, S.Starting(map[id := row], NO_RESTARTS, {id}), NO_ROUTINES, false);
            var started := Running(id, row, S.Starting(map[id := row], NO_RESTARTS, {}), S.Fresh);
            && S.Enabled(starting, S.StartMissing(id, 0)) && S.Apply(starting, S.StartMissing(id, 0)) == started
            && S.Enabled(started, S.UnlockStart) && S.Apply(started, S.UnlockStart) == Running(id, row, S.Idle, S.Fresh)
  {
    assert {id} - {id} == {};
  }

  lemma IdleSteps(id: S.RemoteId, row: S.Remote)
    requires row.enabled
    ensures var idle := Reconciling(id, row, S.Idle, NO_ROUTINES, false);
            && S.Enabled(idle, S.List) && S.Apply(idle, S.List) == Reconciling(id, row, S.Listed(map[id := row]), NO_ROUTINES, false)
    ensures var begun := Running(id, row, S.Idle, S.InPass);
            && S.Enabled(Running(id, row, S.Idle, S.Fresh), S.BeginFirst(0))
            && S.Apply(Running(id, row, S.Idle, S.Fresh), S.BeginFirst(0)) == begun
            && S.Enabled(begun, S.List) && S.Apply(begun, S.List) == Running(id, row, S.Listed(map[id := row]), S.InPass)
  {
    assert S.EnabledRows(map[id := row]) == map[id := row];
  }

  lemma FirstPass(world: World, maps: map<MapId, M.State>, id: S.RemoteId, row: S.Remote)
    returns (states: seq<State>, steps: seq<Step>)
    requires row.enabled && forall m | m in maps :: M.Init(maps[m])
    ensures Run(world, states, steps) && |states| == |steps| + 1
    ensures states[|steps|] == State(Running(id, row, S.Idle, S.InPass), maps)
  {
    states, steps := [State(Reconciling(id, row, S.Idle, NO_ROUTINES, false), maps)], [];
    assert Run(world, states, steps);
    IdleSteps(id, row);
    StartSteps(id, row);
    hide Run, S.Enabled, S.Apply, Reconciling, Running;
    states, steps := SupStep(world, states, steps, S.List, Reconciling(id, row, S.Listed(map[id := row]), NO_ROUTINES, false));
    states, steps := Reconcile(world, states, steps, id, row, NO_ROUTINES, false);
    states, steps := SupStep(world, states, steps, S.StartMissing(id, 0), Running(id, row, S.Starting(map[id := row], NO_RESTARTS, {}), S.Fresh));
    states, steps := SupStep(world, states, steps, S.UnlockStart, Running(id, row, S.Idle, S.Fresh));
    states, steps := SupStep(world, states, steps, S.BeginFirst(0), Running(id, row, S.Idle, S.InPass));
  }

  // ----- Stop in the middle of reconcile -----

  function Doomed(id: S.RemoteId, row: S.Remote): map<S.Wid, S.Routine> {
    map[0 := Born(id, row).(phase := S.InPass, cancelled := true)]
  }

  lemma StopSteps(id: S.RemoteId, row: S.Remote)
    ensures var listed := Running(id, row, S.Listed(map[id := row]), S.InPass);
            var cancelled := listed.(shutdown := true, routines := Doomed(id, row));
            && S.Enabled(listed, S.CancelRoot) && S.Apply(listed, S.CancelRoot) == cancelled
            && S.Enabled(cancelled, S.Stop)
            && S.Apply(cancelled, S.Stop) == Reconciling(id, row, S.Listed(map[id := row]), Doomed(id, row), true)
  {
    var listed := Running(id, row, S.Listed(map[id := row]), S.InPass);
    assert S.CancelAll(listed.routines) == Doomed(id, row);
    assert S.CancelHandles(listed.(shutdown := true, routines := Doomed(id, row))) == Doomed(id, row);
  }

  lemma SecondStart(id: S.RemoteId, row: S.Remote)
    ensures var starting := Reconciling(id, row, S.Starting(map[id := row], NO_RESTARTS, {id}), Doomed(id, row), true);
            && S.Enabled(starting, S.StartMissing(id, 1))
            && var sup := S.Apply(starting, S.StartMissing(id, 1));
               && sup.shutdown && S.Live(sup, 0) && S.Live(sup, 1) && sup.routines[1].stillborn
               && sup.routines[0].remote == sup.routines[1].remote == id
  {
  }

  /** After shutdown two workers of one remote can be live: Stop empties the map between reconcile's two
      critical sections, and reconcile then starts every remote anew while the cancelled worker is still
      in its pass. The second one is stillborn. */
  lemma StopDuringReconcileDoublesAWorker(world: World, id: S.RemoteId, row: S.Remote)
    returns (states: seq<State>, steps: seq<Step>)
    requires row.enabled
    ensures Run(world, states, steps) && |states| == |steps| + 1
    ensures var sup := states[|steps|].sup;
            && sup.shutdown && S.Live(sup, 0) && S.Live(sup, 1) && sup.routines[1].stillborn
            && sup.routines[0].remote == sup.routines[1].remote == id
  {
    IdleSteps(id, row);
    StopSteps(id, row);
    SecondStart(id, row);
    hide Run, S.Enabled, S.Apply, Reconciling, Doomed;
    states, steps := FirstPass(world, map[], id, row);
    var listed := Running(id, row, S.Listed(map[id := row]), S.InPass);
    states, steps := SupStep(world, states, steps, S.List, listed);
    states, steps := SupStep(world, states, steps, S.CancelRoot, listed.(shutdown := true, routines := Doomed(id, row)));
    states, steps := SupStep(world, states, steps, S.Stop, Reconciling(id, row, S.Listed(map[id := row]), Doomed(id, row), true));
    states, steps := Reconcile(world, states, steps, id, row, Doomed(id, row), true);
    states, steps := SupStep(world, states, steps, S.StartMissing(id, 1), S.Apply(states[|steps|].sup, S.StartMissing(id, 1)));
  }

  // ----- The backfill across a rename -----

  /** The worker is in its pass and the map's state is ms. */
  predicate Working(s: State, m: MapId, id: S.RemoteId, row: S.Remote, ms: M.State) {
    s == State(Running(id, row, S.Idle, S.InPass), map[m := ms])
  }

  lemma OnlyMap(s: State, m: MapId, id: S.RemoteId, row: S.Remote, ms: M.State, ms': M.State)
    requires Working(s, m, id, row, ms)
    ensures m in s.maps && s.maps[m] == ms && Working(SetMap(s, m, ms'), m, id, row, ms')
  {
  }

  lemma WorkStep(world: World, states: seq<State>, steps: seq<Step>, m: MapId, id: S.RemoteId, row: S.Remote, step: Step, ms: M.State, ms': M.State)
    returns (states': seq<State>, steps': seq<Step>)
    requires Run(world, states, steps) && |states| == |steps| + 1 && Working(states[|steps|], m, id, row, ms)
    requires Enabled(world, states[|steps|], step) && Apply(world, states[|steps|], step) == SetMap(states[|steps|], m, ms')
    ensures Run(world, states', steps') && |states'| == |steps'| + 1 && Working(states'[|steps'|], m, id, row, ms')
  {
    hide Enabled, Apply, Run, Working;
    OnlyMap(states[|steps|], m, id, row, ms, ms');
    states', steps' := MapStep(world, states, steps, step, m, ms');
  }

  lemma WorkPath(world: World, states: seq<State>, steps: seq<Step>, m: MapId, id: S.RemoteId, row: S.Remote, path: seq<M.State>, tasks: seq<M.TaskStep>)
    returns (states': seq<State>, steps': seq<Step>)
    requires |path| == |tasks| + 1 && P.Path(world.archives(m), 0, path, tasks)
    requires Run(world, states, steps) && |states| == |steps| + 1 && Working(states[|steps|], m, id, row, path[0])
    ensures Run(world, states', steps') && |states'| == |steps'| + 1 && Working(states'[|steps'|], m, id, row, path[|tasks|])
  {
    hide Run, Working, P.Path;
    OnlyMap(states[|steps|], m, id, row, path[0], path[|tasks|]);
    states', steps' := Follow(world, states, steps, m, 0, path, tasks);
  }

  lemma BeginStep(world: World, s: State, m: MapId, id: S.RemoteId, row: S.Remote, ms: M.State)
    requires Working(s, m, id, row, ms) && ms.tasks == map[] && m in world.home && world.home[m] == id
    ensures Enabled(world, s, Begin(m, 0, "")) && Apply(world, s, Begin(m, 0, "")) == SetMap(s, m, Begun(ms))
  {
  }

  function Begun(ms: M.State): M.State { ms.(tasks := map[0 := M.Listing("")]) }

  lemma EnvMove(world: World, s: State, m: MapId, id: S.RemoteId, row: S.Remote, ms: M.State, env: M.EnvStep)
    requires Working(s, m, id, row, ms) && M.EnvEnabled(ms, env)
    ensures Enabled(world, s, Env(m, env)) && Apply(world, s, Env(m, env)) == SetMap(s, m, M.EnvApply(ms, env))
  {
    hide M.EnvEnabled, M.EnvApply;
  }

  lemma TaskMove(world: World, s: State, m: MapId, id: S.RemoteId, row: S.Remote, ms: M.State, step: M.TaskStep, ms': M.State)
    requires Working(s, m, id, row, ms) && P.Takes(world.archives(m), ms, 0, step, ms')
    ensures Enabled(world, s, Work(m, 0, step)) && Apply(world, s, Work(m, 0, step)) == SetMap(s, m, ms')
  {
    hide M.Enabled, M.Apply;
  }

  const NO_SCANS: map<M.Version, M.Scan> := map[]

  function InHand(v: M.Version): map<M.Version, M.Scan> { map[v := M.Scanning({})] }

  /** The one task has everything staged for v, and ... */
  ghost function Staged(v: M.Version, at: M.Time, dirs: map<M.Version, Tree>, t: Tree, backfill: map<M.Version, M.Scan>): M.State {
    P.FRESH.(listed := map[v := at], dirs := dirs, staging := map[7 := WithIndex(t)], backfill := backfill,
             tasks := map[0 := M.Pulling("", map[v := at], [v], M.Clearing(7))])
  }

  /** ... has put it in place. */
  ghost function InPlace(v: M.Version, at: M.Time, t: Tree, backfill: map<M.Version, M.Scan>): M.State {
    P.FRESH.(listed := map[v := at], dirs := map[v := WithIndex(t)], straddled := backfill.Keys, backfill := backfill,
             tasks := map[0 := M.Pulling("", map[v := at], [v], M.Renamed)])
  }

  /** A sync of the map, from its beginning to the clearing of what stands in the way. */
  lemma StageAll(world: World, states: seq<State>, steps: seq<Step>, m: MapId, id: S.RemoteId, row: S.Remote, v: M.Version, at: M.Time, t: Tree, dirs: map<M.Version, Tree>)
    returns (states': seq<State>, steps': seq<Step>)
    requires Run(world, states, steps) && |states| == |steps| + 1
    requires Working(states[|steps|], m, id, row, P.FRESH.(listed := map[v := at], dirs := dirs))
    requires m in world.home && world.home[m] == id && M.Extraction(world.archives(m), v) == Ok(t)
    ensures Run(world, states', steps') && |states'| == |steps'| + 1
    ensures Working(states'[|steps'|], m, id, row, Staged(v, at, dirs, t, NO_SCANS))
  {
    hide Run, P.Path, M.Extraction, WithIndex, Working, Enabled, Apply, Staged, P.Holding, P.Listed;
    var arch, ms := world.archives(m), P.FRESH.(listed := map[v := at], dirs := dirs);
    var begun := Begun(ms);
    BeginStep(world, states[|steps|], m, id, row, ms);
    states', steps' := WorkStep(world, states, steps, m, id, row, Begin(m, 0, ""), ms, begun);
    var p, q := P.ListPath(arch, begun, 0, v, at);
    states', steps' := WorkPath(world, states', steps', m, id, row, p, q);
    StagedState(v, at, dirs, t);
    p, q := P.StagePath(arch, P.Listed(begun, 0, v), 0, v, 7, t);
    states', steps' := WorkPath(world, states', steps', m, id, row, p, q);
  }

  lemma StagedState(v: M.Version, at: M.Time, dirs: map<M.Version, Tree>, t: Tree)
    ensures var listed := P.Listed(Begun(P.FRESH.(listed := map[v := at], dirs := dirs)), 0, v);
            P.AboutToPull(listed, 0, v) && listed.staging == map[]
            && P.Holding(listed, 0, M.Clearing(7), 7, WithIndex(t)) == Staged(v, at, dirs, t, NO_SCANS)
  {
    hide WithIndex;
  }

  /** ... and the rename. */
  lemma PlaceAll(world: World, states: seq<State>, steps: seq<Step>, m: MapId, id: S.RemoteId, row: S.Remote, v: M.Version, at: M.Time, t: Tree, dirs: map<M.Version, Tree>, backfill: map<M.Version, M.Scan>)
    returns (states': seq<State>, steps': seq<Step>)
    requires Run(world, states, steps) && |states| == |steps| + 1 && dirs.Keys <= {v} && (backfill == NO_SCANS || backfill == InHand(v))
    requires Working(states[|steps|], m, id, row, Staged(v, at, dirs, t, backfill))
    ensures Run(world, states', steps') && |states'| == |steps'| + 1
    ensures Working(states'[|steps'|], m, id, row, InPlace(v, at, t, backfill))
  {
    var staged := Staged(v, at, dirs, t, backfill);
    var p, q := P.PlacePath(world.archives(m), staged, 0, v, 7);
    PlacedIsInPlace(v, at, t, dirs, backfill);
    hide Run, P.Path, WithIndex, Working, Staged, InPlace;
    states', steps' := WorkPath(world, states, steps, m, id, row, p, q);
  }

  lemma PlacedIsInPlace(v: M.Version, at: M.Time, t: Tree, dirs: map<M.Version, Tree>, backfill: map<M.Version, M.Scan>)
    requires dirs.Keys <= {v} && (backfill == NO_SCANS || backfill == InHand(v))
    ensures P.Placed(Staged(v, at, dirs, t, backfill), 0, v, 7) == InPlace(v, at, t, backfill)
  {
    hide WithIndex;
    var staged := Staged(v, at, dirs, t, backfill);
    assert dirs[v := WithIndex(t)] == map[v := WithIndex(t)];
    assert staged.staging - {7} == map[];
    assert M.Detached(backfill, v) == backfill;
    assert staged.straddled - {v} + {v} * backfill.Keys == backfill.Keys;
  }

  /** A pull whose last call, the record, fails: the directory stays behind. */
  lemma FailedPull(world: World, m: MapId, id: S.RemoteId, row: S.Remote, v: M.Version, at: M.Time, t: Tree)
    returns (states: seq<State>, steps: seq<Step>)
    requires row.enabled && m in world.home && world.home[m] == id && M.Extraction(world.archives(m), v) == Ok(t)
    requires Numerals.IsNumeric(v)
    ensures Run(world, states, steps) && |states| == |steps| + 1
    ensures Working(states[|steps|], m, id, row, P.FRESH.(listed := map[v := at], dirs := map[v := WithIndex(t)]))
  {
    hide Run, M.Extraction, WithIndex, Enabled, Apply, P.Takes;
    states, steps := FirstPass(world, map[m := P.FRESH], id, row);
    var ms := P.FRESH.(listed := map[v := at]);
    EnvMove(world, states[|steps|], m, id, row, P.FRESH, M.Publish(v, at));
    states, steps := WorkStep(world, states, steps, m, id, row, Env(m, M.Publish(v, at)), P.FRESH, ms);
    assert ms == P.FRESH.(listed := map[v := at], dirs := map[]);
    hide Working;
    states, steps := StageAll(world, states, steps, m, id, row, v, at, t, map[]);
    states, steps := PlaceAll(world, states, steps, m, id, row, v, at, t, map[], NO_SCANS);
    var left := P.FRESH.(listed := map[v := at], dirs := map[v := WithIndex(t)]);
    FailAfterPlacing(world.archives(m), v, at, t);
    TaskMove(world, states[|steps|], m, id, row, InPlace(v, at, t, NO_SCANS), M.Fail(None), left);
    states, steps := WorkStep(world, states, steps, m, id, row, Work(m, 0, M.Fail(None)), InPlace(v, at, t, NO_SCANS), left);
  }

  lemma FailAfterPlacing(arch: M.Archives, v: M.Version, at: M.Time, t: Tree)
    ensures P.Takes(arch, InPlace(v, at, t, NO_SCANS), 0, M.Fail(None), P.FRESH.(listed := map[v := at], dirs := map[v := WithIndex(t)]))
  {
    hide Extract, WithIndex, M.IsPullOrder;
    assert InPlace(v, at, t, NO_SCANS).tasks - {0} == map[];
  }

  /** The next pull of the version has begun to clear the directory, its index first, when the backfill
      comes by. */
  lemma ClearedUnderTheBackfill(world: World, m: MapId, id: S.RemoteId, row: S.Remote, v: M.Version, at: M.Time, t: Tree)
    returns (states: seq<State>, steps: seq<Step>)
    requires row.enabled && m in world.home && world.home[m] == id && M.Extraction(world.archives(m), v) == Ok(t)
    requires Numerals.IsNumeric(v)
    ensures Run(world, states, steps) && |states| == |steps| + 1
    ensures Working(states[|steps|], m, id, row, Staged(v, at, map[v := EMPTY_TREE], t, InHand(v)))
  {
    hide Run, M.Extraction, WithIndex, Enabled, Apply, P.Takes, Working;
    states, steps := FailedPull(world, m, id, row, v, at, t);
    states, steps := StageAll(world, states, steps, m, id, row, v, at, t, map[v := WithIndex(t)]);
    var before, emptied := Staged(v, at, map[v := WithIndex(t)], t, NO_SCANS), Staged(v, at, map[v := EMPTY_TREE], t, NO_SCANS);
    ClearStep(world.archives(m), v, at, t);
    TaskMove(world, states[|steps|], m, id, row, before, M.ClearSome(EMPTY_TREE), emptied);
    states, steps := WorkStep(world, states, steps, m, id, row, Work(m, 0, M.ClearSome(EMPTY_TREE)), before, emptied);
    EnvMove(world, states[|steps|], m, id, row, emptied, M.BackfillStat(v));
    var seen := Staged(v, at, map[v := EMPTY_TREE], t, InHand(v));
    states, steps := WorkStep(world, states, steps, m, id, row, Env(m, M.BackfillStat(v)), emptied, seen);
  }

  lemma ClearStep(arch: M.Archives, v: M.Version, at: M.Time, t: Tree)
    ensures P.Takes(arch, Staged(v, at, map[v := WithIndex(t)], t, NO_SCANS), 0, M.ClearSome(EMPTY_TREE), Staged(v, at, map[v := EMPTY_TREE], t, NO_SCANS))
  {
    hide Extract, WithIndex, M.IsPullOrder;
  }

  ghost function Recorded(v: M.Version, at: M.Time, t: Tree): M.State {
    P.FRESH.(listed := map[v := at], dirs := map[v := WithIndex(t)], straddled := {v}, backfill := InHand(v), recorded := map[v := at],
             tasks := map[0 := M.Pulling("", map[v := at], [], M.AtCheck)])
  }

  lemma RecordStep(arch: M.Archives, v: M.Version, at: M.Time, t: Tree)
    ensures P.Takes(arch, InPlace(v, at, t, InHand(v)), 0, M.Record, Recorded(v, at, t))
  {
    hide Extract, WithIndex, M.IsPullOrder;
    assert [v][1..] == [];
    var before := InPlace(v, at, t, InHand(v));
    assert M.Apply(arch, before, 0, before.tasks[0], M.Record).tasks == Recorded(v, at, t).tasks;
  }

  lemma RecordedUnderTheBackfill(world: World, m: MapId, id: S.RemoteId, row: S.Remote, v: M.Version, at: M.Time, t: Tree)
    returns (states: seq<State>, steps: seq<Step>)
    requires row.enabled && m in world.home && world.home[m] == id && M.Extraction(world.archives(m), v) == Ok(t)
    requires Numerals.IsNumeric(v)
    ensures Run(world, states, steps) && |states| == |steps| + 1
    ensures Working(states[|steps|], m, id, row, Recorded(v, at, t))
  {
    RecordStep(world.archives(m), v, at, t);
    hide Run, M.Extraction, WithIndex, Enabled, Apply, P.Takes, Working, Recorded, InPlace;
    states, steps := ClearedUnderTheBackfill(world, m, id, row, v, at, t);
    states, steps := PlaceAll(world, states, steps, m, id, row, v, at, t, map[v := EMPTY_TREE], InHand(v));
    TaskMove(world, states[|steps|], m, id, row, InPlace(v, at, t, InHand(v)), M.Record, Recorded(v, at, t));
    states, steps := WorkStep(world, states, steps, m, id, row, Work(m, 0, M.Record), InPlace(v, at, t, InHand(v)), Recorded(v, at, t));
  }

  lemma RecordedInHand(arch: M.Archives, v: M.Version, at: M.Time, t: Tree)
    requires M.Extraction(arch, v) == Ok(t)
    ensures var s := Recorded(v, at, t);
            v in s.recorded && v in s.dirs && M.Complete(arch, v, s.dirs[v]) && v in s.backfill
  {
    hide Extract, WithIndex;
  }

  /** A recorded version can end up with a wrong index: the backfill finds the version's old directory
      half cleared, the new one is renamed into place and recorded, and then the backfill opens the index
      to write what it saw. */
  lemma BackfillReplacesAnIndex(world: World, m: MapId, id: S.RemoteId, row: S.Remote, v: M.Version, at: M.Time)
    returns (states: seq<State>, steps: seq<Step>)
    requires row.enabled && m in world.home && world.home[m] == id && M.Extraction(world.archives(m), v).Ok?
    requires Numerals.IsNumeric(v)
    ensures Run(world, states, steps) && |states| == |steps| + 1 && m in states[|steps|].maps
    ensures var s := states[|steps|].maps[m];
            && v in s.recorded && v in s.dirs && !M.Complete(world.archives(m), v, s.dirs[v])
  {
    var t := M.Extraction(world.archives(m), v).value;
    states, steps := RecordedUnderTheBackfill(world, m, id, row, v, at, t);
    RecordedInHand(world.archives(m), v, at, t);
    OnlyMap(states[|steps|], m, id, row, Recorded(v, at, t), Recorded(v, at, t));
    hide Run, Enabled, Apply, M.Complete, M.Extraction, Recorded;
    var step := InHandIsLost(world, states, steps, m, v);
    var s := Apply(world, states[|steps|], step);
    states, steps := states + [s], steps + [step];
    RunLength(world, states, steps);
  }
}
