/** What holds over every run of the server: any interleaving of the reconciler, Trigger, workers,
    map syncs, requests and remote publications, with failures and crashes anywhere. */
module ServerRuns {
  import opened Archive
  import opened Server
  import opened TileIndex
  import opened Wrappers
  import M = MirrorPull
  import O = MirrorOrder
  import S = Supervisor

  ghost predicate StepAt(world: World, states: seq<State>, steps: seq<Step>, i: nat)
    requires |states| == |steps| + 1 && i < |steps|
  {
    Enabled(world, states[i], steps[i]) && states[i + 1] == Apply(world, states[i], steps[i])
  }

  ghost predicate Run(world: World, states: seq<State>, steps: seq<Step>) {
    && |states| == |steps| + 1
    && Init(states[0])
    && forall i | 0 <= i < |steps| :: StepAt(world, states, steps, i)
  }

  lemma {:induction false} RunKeepsInv(world: World, states: seq<State>, steps: seq<Step>, i: nat)
    requires Run(world, states, steps) && i < |states|
    ensures Inv(world, states[i])
  {
    hide Inv, Enabled, Apply;
    if i == 0 {
      InitInv(world, states[0]);
    } else {
      RunKeepsInv(world, states, steps, i - 1);
      assert StepAt(world, states, steps, i - 1);
      StepKeepsInv(world, states[i - 1], steps[i - 1]);
    }
  }

  /** Every version recorded for a mirrored map has a directory that holds its extracted archive and an
      index; and the index is that of its tiles unless the backfill had the version in hand when the
      directory was renamed into place. */
  lemma RecordedVersionsAreInPlace(world: World, states: seq<State>, steps: seq<Step>, i: nat, m: MapId, v: M.Version)
    requires Run(world, states, steps) && i < |states|
    requires m in states[i].maps && v in states[i].maps[m].recorded
    ensures var s := states[i].maps[m];
            && v in s.dirs && M.CompleteButIndex(world.archives(m), v, s.dirs[v])
            && (v !in s.straddled ==> M.Complete(world.archives(m), v, s.dirs[v]))
  {
    hide M.Complete, M.CompleteButIndex, Enabled, Apply;
    RunKeepsInv(world, states, steps, i);
    assert M.Inv(world.archives(m), states[i].maps[m]);
    assert M.InPlace(world.archives(m), states[i].maps[m], v);
  }

  /** The step renames v into place while the backfill has it in hand, its file not opened yet. */
  predicate RenamesInHand(s: State, step: Step, m: MapId, v: M.Version) {
    && step.Work? && step.m == m && step.task.Rename? && m in s.maps && step.w in s.maps[m].tasks
    && M.PullingAt(s.maps[m].tasks[step.w]) && s.maps[m].tasks[step.w].queue[0] == v
    && v in s.maps[m].backfill && s.maps[m].backfill[v].Scanning?
  }

  lemma TaskStraddles(arch: M.Archives, s: M.State, w: M.Wid, step: M.TaskStep, v: M.Version)
    requires w in s.tasks && M.Enabled(arch, s, s.tasks[w], step)
    requires v !in s.straddled && v in M.Apply(arch, s, w, s.tasks[w], step).straddled
    ensures step.Rename? && M.PullingAt(s.tasks[w]) && s.tasks[w].queue[0] == v
    ensures v in s.backfill && s.backfill[v].Scanning?
  {
    hide Extract, WithIndex, M.IsPullOrder;
  }

  lemma WorkStraddles(world: World, s: State, m: MapId, w: M.Wid, task: M.TaskStep, v: M.Version)
    requires Enabled(world, s, Work(m, w, task)) && v !in s.maps[m].straddled && !RenamesInHand(s, Work(m, w, task), m, v)
    ensures v !in M.Apply(world.archives(m), s.maps[m], w, s.maps[m].tasks[w], task).straddled
  {
    hide M.Enabled, M.Apply;
    if v in M.Apply(world.archives(m), s.maps[m], w, s.maps[m].tasks[w], task).straddled {
      TaskStraddles(world.archives(m), s.maps[m], w, task, v);
    }
  }

  lemma EnvKeepsStraddled(s: M.State, env: M.EnvStep)
    requires M.EnvEnabled(s, env)
    ensures M.EnvApply(s, env).straddled == s.straddled
  {
  }

  lemma StepStraddles(world: World, s: State, step: Step, m: MapId, v: M.Version)
    requires Enabled(world, s, step) && m in s.maps && v !in s.maps[m].straddled && !RenamesInHand(s, step, m, v)
    ensures m in Apply(world, s, step).maps && v !in Apply(world, s, step).maps[m].straddled
  {
    hide S.Enabled, S.Apply, M.Enabled, M.Apply, M.EnvEnabled, M.EnvApply, RenamesInHand, WorksFor;
    match step
    case Work(n, w, task) => if n == m { WorkStraddles(world, s, m, w, task, v); }
    case Env(n, env) => EnvKeepsStraddled(s.maps[n], env);
    case _ =>
  }

  lemma {:induction false} NeverStraddled(world: World, states: seq<State>, steps: seq<Step>, i: nat, m: MapId, v: M.Version)
    requires Run(world, states, steps) && i < |states| && m in states[i].maps
    requires forall k | 0 <= k < i :: !RenamesInHand(states[k], steps[k], m, v)
    ensures v !in states[i].maps[m].straddled
  {
    if i > 0 {
      hide Enabled, Apply, RenamesInHand;
      assert StepAt(world, states, steps, i - 1);
      SameMaps(world, states[i - 1], steps[i - 1]);
      NeverStraddled(world, states, steps, i - 1, m, v);
      StepStraddles(world, states[i - 1], steps[i - 1], m, v);
    }
  }

  lemma SameMaps(world: World, s: State, step: Step)
    requires Enabled(world, s, step)
    ensures Apply(world, s, step).maps.Keys == s.maps.Keys
  {
    hide S.Enabled, S.Apply, M.Enabled, M.Apply;
  }

  /** Every recorded version is complete, a directory equal to its extracted archive plus its index, in
      every run in which no pull renamed it while the backfill had it in hand: in particular if the
      backfill was over before. */
  lemma RecordedVersionsAreComplete(world: World, states: seq<State>, steps: seq<Step>, i: nat, m: MapId, v: M.Version)
    requires Run(world, states, steps) && i < |states|
    requires m in states[i].maps && v in states[i].maps[m].recorded
    requires forall k | 0 <= k < i :: !RenamesInHand(states[k], steps[k], m, v)
    ensures v in states[i].maps[m].dirs && M.Complete(world.archives(m), v, states[i].maps[m].dirs[v])
  {
    hide M.Complete, Run, RenamesInHand;
    RecordedVersionsAreInPlace(world, states, steps, i, m, v);
    NeverStraddled(world, states, steps, i, m, v);
  }

  /** Of the live worker goroutines of a remote at most one has a context that was not cancelled when it
      was born, shutdown or not; and until shutdown that is every live worker. */
  lemma AtMostOneWorker(world: World, states: seq<State>, steps: seq<Step>, i: nat, w: S.Wid, w': S.Wid)
    requires Run(world, states, steps) && i < |states|
    requires S.Live(states[i].sup, w) && S.Live(states[i].sup, w')
    requires states[i].sup.routines[w].remote == states[i].sup.routines[w'].remote
    ensures w == w' || states[i].sup.routines[w].stillborn || states[i].sup.routines[w'].stillborn
    ensures !states[i].sup.shutdown ==> w == w'
  {
    hide Enabled, Apply, MapsOk, Owned;
    RunKeepsInv(world, states, steps, i);
  }

  // ----- What requests are told -----

  /** v is what some request may be told "current" means now: a cache hit, an answer another request
      has read and is about to store, or the row itself. The empty string is answered with 404. */
  predicate CurrentAnswer(s: M.State, v: string) {
    v != "" && (s.currentCache == Some(v) || M.CurrentFill(v) in s.fills || s.current == v)
  }

  predicate AliasAnswer(s: M.State, alias: string, v: string) {
    || (alias in s.aliasCache && s.aliasCache[alias] == v)
    || M.AliasFill(alias, v) in s.fills
    || (alias in s.aliases && s.aliases[alias] == v)
  }

  /** However far the remote races ahead, "current" and an alias only ever resolve to a recorded and
      complete version, cached or not. */
  lemma AnswersAreComplete(world: World, states: seq<State>, steps: seq<Step>, i: nat, m: MapId, alias: string, v: string)
    requires Run(world, states, steps) && i < |states| && m in states[i].maps
    requires CurrentAnswer(states[i].maps[m], v) || AliasAnswer(states[i].maps[m], alias, v)
    ensures v in states[i].maps[m].recorded && v in states[i].maps[m].dirs
    ensures M.CompleteButIndex(world.archives(m), v, states[i].maps[m].dirs[v])
    ensures v !in states[i].maps[m].straddled ==> M.Complete(world.archives(m), v, states[i].maps[m].dirs[v])
  {
    hide M.Complete, M.CompleteButIndex, Enabled, Apply;
    RunKeepsInv(world, states, steps, i);
    assert M.Inv(world.archives(m), states[i].maps[m]);
    assert M.InPlace(world.archives(m), states[i].maps[m], v);
  }

  // ----- Oldest first -----

  predicate InOrder(s: State, step: Step) {
    step.Env? && step.m in s.maps ==> O.PublishesInOrder(s.maps[step.m], step.env)
  }

  ghost predicate AllOrdered(s: State) {
    forall m | m in s.maps :: O.Order(s.maps[m])
  }

  lemma StepKeepsOrder(world: World, s: State, step: Step)
    requires AllOrdered(s) && Enabled(world, s, step) && InOrder(s, step)
    ensures AllOrdered(Apply(world, s, step))
  {
    hide O.Order, S.Enabled, S.Apply, M.Enabled, M.Apply;
    match step
    case Sup(_) =>
    case Begin(m, w, current) => BeginKeepsOrder(s.maps[m], w, current);
    case Work(m, w, task) => O.TaskStepKeepsOrder(world.archives(m), s.maps[m], w, task);
    case Env(m, env) => O.EnvKeepsOrder(s.maps[m], env);
    case Crash =>
      forall m | m in s.maps ensures O.Order(M.Crash(s.maps[m])) {
        CrashKeepsOrder(s.maps[m]);
      }
  }

  lemma BeginKeepsOrder(s: M.State, w: S.Wid, current: string)
    requires O.Order(s)
    ensures O.Order(M.StartTask(s, w, current))
  {
    hide O.Dated, O.DownwardClosed, O.SnapOk, O.Oldest;
  }

  lemma CrashKeepsOrder(s: M.State)
    requires O.Order(s)
    ensures O.Order(M.Crash(s))
  {
    hide O.Dated, O.DownwardClosed;
  }

  lemma {:induction false} RunKeepsOrder(world: World, states: seq<State>, steps: seq<Step>, i: nat)
    requires Run(world, states, steps) && i < |states|
    requires forall k | 0 <= k < i :: InOrder(states[k], steps[k])
    ensures AllOrdered(states[i])
  {
    hide O.Order, Enabled, Apply;
    if i == 0 {
      forall m | m in states[0].maps ensures O.Order(states[0].maps[m]) {
        O.InitOrder(states[0].maps[m]);
      }
    } else {
      RunKeepsOrder(world, states, steps, i - 1);
      assert StepAt(world, states, steps, i - 1);
      StepKeepsOrder(world, states[i - 1], steps[i - 1]);
    }
  }

  /** If the remote publishes in order, then across any number of interrupted passes no version
      missing locally is strictly older than one that is present. */
  lemma OldestVersionsFirst(world: World, states: seq<State>, steps: seq<Step>, i: nat, m: MapId, v: M.Version, u: M.Version)
    requires Run(world, states, steps) && i < |states| && m in states[i].maps
    requires forall k | 0 <= k < i :: InOrder(states[k], steps[k])
    requires v in states[i].maps[m].recorded && v in states[i].maps[m].listed && u in states[i].maps[m].listed
    requires states[i].maps[m].listed[u] < states[i].maps[m].listed[v]
    ensures u in states[i].maps[m].recorded
  {
    hide Enabled, Apply, Run;
    RunKeepsOrder(world, states, steps, i);
    assert O.Order(states[i].maps[m]);
  }

  // ----- Triggers -----

  /** An unanswered trigger for id is safe: in the channel of the worker in the map, or that worker
      has yet to begin its first pass, or a restart, which begins with a pass, is pending. */
  predicate Held(s: S.State, id: S.RemoteId) {
    || (id in s.workers && s.workers[id].wid in s.routines
        && (s.routines[s.workers[id].wid].slot || s.routines[s.workers[id].wid].phase == S.Fresh))
    || id in S.RestartMap(s.rec)
  }

  /** A worker of id begins a pass that was not cancelled beforehand. */
  predicate Answers(s: S.State, step: S.Step, id: S.RemoteId) {
    && (step.BeginFirst? || step.TickPass? || step.TakeTrigger?)
    && step.w in s.routines && s.routines[step.w].remote == id && !s.routines[step.w].cancelled
  }

  /** The reconciler removes id's worker because the remote was removed or disabled. */
  predicate Drops(s: S.State, step: S.Step, id: S.RemoteId) {
    step == S.ScanOne(id) && s.rec.Scanning? && id !in s.rec.desired
  }

  predicate Settles(s: State, step: Step, id: S.RemoteId) {
    step.Crash? || (step.Sup? && (Answers(s.sup, step.step, id) || Drops(s.sup, step.step, id)))
  }

  lemma UnservedStays(s: S.State, step: S.Step, id: S.RemoteId)
    requires S.Enabled(s, step) && id in s.unserved && !Answers(s, step, id) && !Drops(s, step, id)
    ensures id in S.Apply(s, step).unserved
  {
  }

  lemma {:induction false} TriggerStaysUnserved(world: World, states: seq<State>, steps: seq<Step>, i: nat, j: nat, id: S.RemoteId)
    requires Run(world, states, steps) && i < j < |states| && steps[i] == Sup(S.Trigger(id))
    requires forall k | i < k < j :: !Settles(states[k], steps[k], id)
    ensures id in states[j].sup.unserved
    decreases j
  {
    assert StepAt(world, states, steps, j - 1);
    if j > i + 1 {
      TriggerStaysUnserved(world, states, steps, i, j - 1, id);
      assert !Settles(states[j - 1], steps[j - 1], id);
      hide S.Apply, S.Enabled, M.Apply, M.Enabled;
      if steps[j - 1].Sup? { UnservedStays(states[j - 1].sup, steps[j - 1].step, id); }
    }
  }

  /** No accepted trigger is lost: from the moment Trigger returns nil until a pass answers it, the
      remote is dropped, the server shuts down or dies, the request is held. */
  lemma AcceptedTriggerIsHeld(world: World, states: seq<State>, steps: seq<Step>, i: nat, j: nat, id: S.RemoteId)
    requires Run(world, states, steps) && i < j < |states| && steps[i] == Sup(S.Trigger(id))
    requires forall k | i < k < j :: !Settles(states[k], steps[k], id)
    requires !states[j].sup.shutdown
    ensures Held(states[j].sup, id)
  {
    TriggerStaysUnserved(world, states, steps, i, j, id);
    RunKeepsInv(world, states, steps, j);
    hide Run, MapsOk, Owned;
    assert S.TriggersHeld(states[j].sup);
  }

  /** Triggers add no passes of their own: every signal a worker has received was put into an empty
      channel, and a trigger that finds the channel full changes nothing the worker can see. */
  lemma FullChannelAddsNoPass(world: World, states: seq<State>, steps: seq<Step>, i: nat, id: S.RemoteId)
    requires Run(world, states, steps) && i < |steps| && steps[i] == Sup(S.Trigger(id))
    ensures id in states[i].sup.workers && states[i].sup.workers[id].wid in states[i].sup.routines
    ensures states[i].sup.workers[id].wid in states[i + 1].sup.routines
    ensures var w := states[i].sup.workers[id].wid;
            var before, after := states[i].sup.routines[w], states[i + 1].sup.routines[w];
            && before.filled == before.taken + (if before.slot then 1 else 0)
            && after.filled == after.taken + 1 && after.slot
            && (before.slot ==> states[i + 1].sup.routines == states[i].sup.routines)
  {
    RunKeepsInv(world, states, steps, i);
    assert StepAt(world, states, steps, i);
    hide Run, MapsOk, Owned;
    assert S.Channels(states[i].sup);
  }

  // ----- Reconciliation -----

  predicate IsList(step: Step) { step == Sup(S.List) }

  lemma DesiredStays(s: S.State, step: S.Step)
    requires S.Enabled(s, step) && !s.rec.Idle?
    ensures !S.Apply(s, step).rec.Idle? ==> S.Apply(s, step).rec.desired == s.rec.desired
    ensures step != S.List
  {
  }

  lemma OnlyListLeavesIdle(s: S.State, step: S.Step)
    requires S.Enabled(s, step) && s.rec.Idle? && !S.Apply(s, step).rec.Idle?
    ensures step == S.List && S.Apply(s, step).rec.desired == S.EnabledRows(s.table)
  {
  }

  /** What a reconciliation in progress works towards is the enabled rows it read when it began. */
  lemma {:induction false} DesiredWasListed(world: World, states: seq<State>, steps: seq<Step>, j: nat) returns (i: nat)
    requires Run(world, states, steps) && j < |states| && !states[j].sup.rec.Idle?
    ensures i < j && IsList(steps[i]) && states[j].sup.rec.desired == S.EnabledRows(states[i].sup.table)
    ensures forall k | i < k < j :: !IsList(steps[k])
  {
    assert j > 0;
    assert StepAt(world, states, steps, j - 1);
    hide S.Apply, S.Enabled, M.Apply, M.Enabled;
    var s, step := states[j - 1], steps[j - 1];
    if s.sup.rec.Idle? {
      assert step.Sup?;
      OnlyListLeavesIdle(s.sup, step.step);
      i := j - 1;
    } else {
      i := DesiredWasListed(world, states, steps, j - 1);
      if step.Sup? { DesiredStays(s.sup, step.step); }
    }
  }

  /** When reconcile returns, the running workers are exactly those of the remotes that were enabled in
      the table it read, and each was started with the settings of its row. */
  lemma ReconcileOutcome(world: World, states: seq<State>, steps: seq<Step>, j: nat) returns (i: nat)
    requires Run(world, states, steps) && j < |steps| && steps[j] == Sup(S.UnlockStart)
    ensures i < j && IsList(steps[i]) && forall k | i < k <= j :: !IsList(steps[k])
    ensures var read, running := states[i].sup.table, states[j + 1].sup.workers;
            && (forall id :: id in running <==> id in read && read[id].enabled)
            && forall id | id in running ::
                 && running[id].config.baseURL == read[id].baseURL
                 && running[id].config.remoteAPIKeyID == read[id].remoteAPIKeyID
                 && running[id].config.pollIntervalSec == read[id].pollIntervalSec
                 && running[id].config.syncAllMaps == read[id].syncAllMaps
                 && running[id].config.syncNewMaps == read[id].syncNewMaps
                 && running[id].config.syncGeoObjects == read[id].syncGeoObjects
  {
    assert StepAt(world, states, steps, j);
    assert states[j].sup.rec.Starting?;
    i := DesiredWasListed(world, states, steps, j);
    RunKeepsInv(world, states, steps, j);
    hide Run, MapsOk, Owned;
    assert S.Reconciled(states[j].sup);
  }

  /** A worker may lose its place to these alone, and to a reconciliation that reads another row for it. */
  predicate EndsWorkers(step: Step) { step.Crash? || step == Sup(S.Stop) || step == Sup(S.Leave) }

  /** A reconciliation leaves a worker running, the same one, if its remote is enabled and all six
      settings it was started with are those of the row. */
  lemma {:induction false} AgreeingWorkerIsKept(world: World, states: seq<State>, steps: seq<Step>, i: nat, j: nat, id: S.RemoteId)
    requires Run(world, states, steps) && i < j < |states| && IsList(steps[i])
    requires forall k | i <= k < j :: !EndsWorkers(steps[k]) && (k > i ==> !IsList(steps[k]))
    requires id in states[i].sup.workers && id in states[i].sup.table && states[i].sup.table[id].enabled
    requires var config, row := states[i].sup.workers[id].config, states[i].sup.table[id];
             && config.baseURL == row.baseURL && config.remoteAPIKeyID == row.remoteAPIKeyID
             && config.pollIntervalSec == row.pollIntervalSec && config.syncAllMaps == row.syncAllMaps
             && config.syncNewMaps == row.syncNewMaps && config.syncGeoObjects == row.syncGeoObjects
    ensures S.Untouched(states[j].sup, id, states[i].sup.table[id])
    ensures states[j].sup.workers[id] == states[i].sup.workers[id]
    ensures !states[j].sup.shutdown ==>
              states[i].sup.workers[id].wid in states[j].sup.routines && !states[j].sup.routines[states[i].sup.workers[id].wid].cancelled
    decreases j
  {
    hide M.Apply, M.Enabled, MapsOk, Owned;
    assert StepAt(world, states, steps, j - 1);
    if j == i + 1 {
      hide S.Untouched;
      ListLeavesAgreeing(states[i].sup, id);
    } else {
      hide S.Apply, S.Enabled, S.Untouched;
      AgreeingWorkerIsKept(world, states, steps, i, j - 1, id);
      assert !EndsWorkers(steps[j - 1]) && !IsList(steps[j - 1]);
      if steps[j - 1].Sup? { S.StepLeavesAgreeing(states[j - 1].sup, steps[j - 1].step, id, states[i].sup.table[id]); }
    }
    WorkerInMapIsLive(world, states, steps, j, id);
  }

  lemma ListLeavesAgreeing(s: S.State, id: S.RemoteId)
    requires S.Enabled(s, S.List) && id in s.workers && id in s.table && s.table[id].enabled
    requires var config, row := s.workers[id].config, s.table[id];
             && config.baseURL == row.baseURL && config.remoteAPIKeyID == row.remoteAPIKeyID
             && config.pollIntervalSec == row.pollIntervalSec && config.syncAllMaps == row.syncAllMaps
             && config.syncNewMaps == row.syncNewMaps && config.syncGeoObjects == row.syncGeoObjects
    ensures S.Untouched(S.Apply(s, S.List), id, s.table[id]) && S.Apply(s, S.List).workers[id] == s.workers[id]
  {
  }

  lemma WorkerInMapIsLive(world: World, states: seq<State>, steps: seq<Step>, j: nat, id: S.RemoteId)
    requires Run(world, states, steps) && j < |states|
    ensures id in states[j].sup.workers ==>
              && states[j].sup.workers[id].wid in states[j].sup.routines
              && (!states[j].sup.shutdown ==> !states[j].sup.routines[states[j].sup.workers[id].wid].cancelled)
  {
    hide Run, MapsOk, Owned;
    RunKeepsInv(world, states, steps, j);
    assert S.Handles(states[j].sup);
  }

  /** Once the server shuts down every worker goroutine's context is cancelled, in every run, whenever it
      was started. */
  lemma {:induction false} ShutdownCancelsEveryone(world: World, states: seq<State>, steps: seq<Step>, i: nat, w: S.Wid)
    requires Run(world, states, steps) && i < |states| && states[i].sup.shutdown && w in states[i].sup.routines
    ensures states[i].sup.routines[w].cancelled
  {
    RunCancelsByShutdown(world, states, steps, i);
  }

  lemma {:induction false} RunCancelsByShutdown(world: World, states: seq<State>, steps: seq<Step>, i: nat)
    requires Run(world, states, steps) && i < |states|
    ensures S.CancelledByShutdown(states[i].sup)
  {
    if i > 0 {
      hide S.Apply, S.Enabled, M.Apply, M.Enabled, S.CancelledByShutdown;
      RunCancelsByShutdown(world, states, steps, i - 1);
      assert StepAt(world, states, steps, i - 1);
      if steps[i - 1].Sup? { S.StepCancelsByShutdown(states[i - 1].sup, steps[i - 1].step); }
      if steps[i - 1].Crash? { FreshIsCancelledByShutdown(states[i].sup); }
    }
  }

  lemma FreshIsCancelledByShutdown(s: S.State)
    requires !s.shutdown
    ensures S.CancelledByShutdown(s)
  {
  }
}
