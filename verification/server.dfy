/** The running server: the manager, its workers and the sync tasks they run, over disk and tables
    that outlive a crash. The remotes mirror disjoint maps. */
module Server {
  import opened Archive
  import opened TileIndex
  import opened Wrappers
  import M = MirrorPull
  import MirrorOrder
  import S = Supervisor

  type MapId = nat

  /** Which remote each mirrored map belongs to, and what that remote serves for it. */
  datatype World = World(home: map<MapId, S.RemoteId>, archives: MapId -> M.Archives)

  datatype State = State(sup: S.State, maps: map<MapId, M.State>)

  datatype Step =
    | Sup(step: S.Step)
    | Begin(m: MapId, w: S.Wid, remoteCurrent: string)
    | Work(m: MapId, w: S.Wid, task: M.TaskStep)
    | Env(m: MapId, env: M.EnvStep)
    | Crash

  /** The worker's pass ends once every map sync it began has returned. */
  predicate PassIsOver(s: State, w: S.Wid) {
    forall m | m in s.maps :: w !in s.maps[m].tasks
  }

  /** A pass syncs maps only after it has listed them, which a worker whose context was cancelled from
      the start never achieves. */
  predicate WorksFor(world: World, s: State, w: S.Wid, m: MapId) {
    && m in world.home && S.AtPhase(s.sup, w, S.InPass) && !s.sup.routines[w].stillborn
    && s.sup.routines[w].remote == world.home[m]
  }

  ghost predicate Enabled(world: World, s: State, step: Step) {
    match step
    case Sup(step) => S.Enabled(s.sup, step) && (step.EndPass? ==> PassIsOver(s, step.w))
    case Begin(m, w, _) => m in s.maps && WorksFor(world, s, w, m) && w !in s.maps[m].tasks
    case Work(m, w, task) =>
      m in s.maps && w in s.maps[m].tasks && M.Enabled(world.archives(m), s.maps[m], s.maps[m].tasks[w], task)
    case Env(m, env) => m in s.maps && M.EnvEnabled(s.maps[m], env)
    case Crash => true
  }

  function SetMap(s: State, m: MapId, ms: M.State): State { s.(maps := s.maps[m := ms]) }

  ghost function Apply(world: World, s: State, step: Step): State
    requires Enabled(world, s, step)
  {
    match step
    case Sup(step) => s.(sup := S.Apply(s.sup, step))
    case Begin(m, w, current) => SetMap(s, m, M.StartTask(s.maps[m], w, current))
    case Work(m, w, task) => SetMap(s, m, M.Apply(world.archives(m), s.maps[m], w, s.maps[m].tasks[w], task))
    case Env(m, env) => SetMap(s, m, M.EnvApply(s.maps[m], env))
    case Crash => State(Restarted(s.sup), map m | m in s.maps :: M.Crash(s.maps[m]))
  }

  function Restarted(sup: S.State): S.State {
    S.State(sup.table, map[], map[], S.Idle, false, false, {})
  }

  predicate Init(s: State) {
    S.Init(s.sup) && forall m | m in s.maps :: M.Init(s.maps[m])
  }

  ghost predicate Owned(world: World, s: State) {
    forall m, w | m in s.maps && w in s.maps[m].tasks :: WorksFor(world, s, w, m)
  }

  ghost predicate MapsOk(world: World, s: State) {
    forall m | m in s.maps :: M.Inv(world.archives(m), s.maps[m])
  }

  ghost predicate Inv(world: World, s: State) {
    S.Inv(s.sup) && Owned(world, s) && MapsOk(world, s)
  }

  lemma InitInv(world: World, s: State)
    requires Init(s)
    ensures Inv(world, s)
  {
    hide M.Complete, M.Extraction;
    S.InitInv(s.sup);
  }

  /** The single worker of a map's remote runs at most one sync of that map. */
  lemma SingleWorkerGivesExclusive(world: World, s: State, m: MapId)
    requires S.Inv(s.sup) && Owned(world, s) && m in s.maps
    ensures M.Exclusive(s.maps[m])
  {
    hide S.Handles, S.Channels, S.Accounted, S.StoppedApart, S.Reconciled, S.TriggersHeld;
    forall w, w' | w in s.maps[m].tasks && w' in s.maps[m].tasks ensures w == w' {
      assert WorksFor(world, s, w, m) && WorksFor(world, s, w', m);
      assert S.Able(s.sup, w) && S.Able(s.sup, w');
    }
  }

  /** A worker stays in its pass until the pass ends. */
  lemma PassGoesOn(s: S.State, step: S.Step, w: S.Wid)
    requires S.Enabled(s, step) && S.AtPhase(s, w, S.InPass) && step != S.EndPass(w)
    ensures var s' := S.Apply(s, step);
            && S.AtPhase(s', w, S.InPass) && s'.routines[w].remote == s.routines[w].remote
            && s'.routines[w].stillborn == s.routines[w].stillborn
  {
  }

  lemma SupKeepsOwned(world: World, s: State, step: S.Step)
    requires Owned(world, s) && Enabled(world, s, Sup(step))
    ensures Owned(world, Apply(world, s, Sup(step)))
  {
    var s' := Apply(world, s, Sup(step));
    forall m, w | m in s'.maps && w in s'.maps[m].tasks ensures WorksFor(world, s', w, m) {
      assert WorksFor(world, s, w, m);
      PassGoesOn(s.sup, step, w);
    }
  }

  lemma WorkKeepsOwned(world: World, s: State, m: MapId, ms: M.State, w: S.Wid)
    requires Owned(world, s) && m in s.maps && WorksFor(world, s, w, m)
    requires ms.tasks.Keys <= s.maps[m].tasks.Keys + {w}
    ensures Owned(world, SetMap(s, m, ms))
  {
    var s' := SetMap(s, m, ms);
    forall n, v | n in s'.maps && v in s'.maps[n].tasks ensures WorksFor(world, s', v, n) {
      assert n != m || v in s.maps[m].tasks || v == w;
      assert v != w && n == m ==> v in s.maps[n].tasks && WorksFor(world, s, v, n);
    }
  }

  lemma TaskStaysItsOwn(arch: M.Archives, s: M.State, w: S.Wid, step: M.TaskStep)
    requires w in s.tasks && M.Enabled(arch, s, s.tasks[w], step)
    ensures M.Apply(arch, s, w, s.tasks[w], step).tasks.Keys <= s.tasks.Keys
  {
    hide Extract, WithIndex, M.IsPullOrder;
  }

  lemma SetMapKeepsMapsOk(world: World, s: State, m: MapId, ms: M.State)
    requires MapsOk(world, s) && m in s.maps && M.Inv(world.archives(m), ms)
    ensures MapsOk(world, SetMap(s, m, ms))
  {
    hide M.Inv;
  }

  lemma CrashKeepsInv(world: World, s: State)
    requires Inv(world, s)
    ensures Inv(world, Apply(world, s, Crash))
  {
    var s' := Apply(world, s, Crash);
    S.InitInv(s'.sup);
    forall m | m in s'.maps ensures M.Inv(world.archives(m), s'.maps[m]) {
      M.CrashKeepsInv(world.archives(m), s.maps[m]);
    }
  }

  lemma StepKeepsInv(world: World, s: State, step: Step)
    requires Inv(world, s) && Enabled(world, s, step)
    ensures Inv(world, Apply(world, s, step))
  {
    hide S.Inv, M.Inv, S.Enabled, S.Apply, M.Enabled, M.Apply;
    match step
    case Sup(step) =>
      S.StepKeepsInv(s.sup, step);
      SupKeepsOwned(world, s, step);
    case Begin(m, w, current) =>
      M.StartKeepsInv(world.archives(m), s.maps[m], w, current);
      SetMapKeepsMapsOk(world, s, m, M.StartTask(s.maps[m], w, current));
      WorkKeepsOwned(world, s, m, M.StartTask(s.maps[m], w, current), w);
    case Work(m, w, task) =>
      var arch, ms := world.archives(m), s.maps[m];
      var ms' := M.Apply(arch, ms, w, ms.tasks[w], task);
      SingleWorkerGivesExclusive(world, s, m);
      M.TaskStepKeepsInv(arch, ms, w, task);
      TaskStaysItsOwn(arch, ms, w, task);
      SetMapKeepsMapsOk(world, s, m, ms');
      assert WorksFor(world, s, w, m);
      WorkKeepsOwned(world, s, m, ms', w);
    case Env(m, env) =>
      M.EnvKeepsInv(world.archives(m), s.maps[m], env);
      SetMapKeepsMapsOk(world, s, m, M.EnvApply(s.maps[m], env));
      EnvKeepsOwned(world, s, m, env);
    case Crash => CrashKeepsInv(world, s);
  }

  lemma EnvKeepsOwned(world: World, s: State, m: MapId, env: M.EnvStep)
    requires Owned(world, s) && m in s.maps && M.EnvEnabled(s.maps[m], env)
    ensures Owned(world, SetMap(s, m, M.EnvApply(s.maps[m], env)))
  {
    var ms := M.EnvApply(s.maps[m], env);
    assert ms.tasks == s.maps[m].tasks;
    var s' := SetMap(s, m, ms);
    forall n, v | n in s'.maps && v in s'.maps[n].tasks ensures WorksFor(world, s', v, n) {
      assert v in s.maps[n].tasks && WorksFor(world, s, v, n);
    }
  }
}
