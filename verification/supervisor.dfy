/** The sync manager and its workers as one transition system: the reconciler's two critical
    sections taken worker by worker, the wait between them, Trigger, Stop, and every worker's loop
    over its ticker, its one-slot trigger channel and its context. */
module Supervisor {
  type RemoteId = nat
  type Wid = nat

  /** A sync_remotes row. */
  datatype Remote = Remote(
    name: string, enabled: bool, baseURL: string, remoteAPIKeyID: nat, pollIntervalSec: int,
    syncAllMaps: bool, syncNewMaps: bool, syncGeoObjects: bool)

  predicate ConfigChanged(running: Remote, current: Remote) {
    || running.baseURL != current.baseURL
    || running.remoteAPIKeyID != current.remoteAPIKeyID
    || running.pollIntervalSec != current.pollIntervalSec
    || running.syncAllMaps != current.syncAllMaps
    || running.syncNewMaps != current.syncNewMaps
    || running.syncGeoObjects != current.syncGeoObjects
  }

  /** An entry of Manager.workers; the goroutine it points at is routines[wid]. */
  datatype Handle = Handle(wid: Wid, config: Remote)

  /** Where a worker goroutine stands: not yet begun its first pass, in a pass, at the select, or
      returned (its done channel is closed). */
  datatype Phase = Fresh | InPass | Selecting | Exited

  /** A worker goroutine with its context and its trigger channel. filled and taken count the
      signals put into and received from the channel. A stillborn one got a context that was already
      cancelled: no request it makes of its remote succeeds. */
  datatype Routine = Routine(
    remote: RemoteId, config: Remote, cancelled: bool, phase: Phase, slot: bool, filled: nat, taken: nat,
    stillborn: bool)

  /** Where reconcile stands. In Scanning and Starting it holds the manager's mutex. */
  datatype Reconciler =
    | Idle
    | Listed(desired: map<RemoteId, Remote>)
    | Scanning(desired: map<RemoteId, Remote>, todo: set<RemoteId>, stopped: set<Wid>, restart: map<RemoteId, Remote>)
    | Waiting(desired: map<RemoteId, Remote>, stopped: set<Wid>, restart: map<RemoteId, Remote>)
    | Starting(desired: map<RemoteId, Remote>, restart: map<RemoteId, Remote>, todo: set<RemoteId>)

  /** shutdown says that the root context is cancelled, halted that Start has returned. unserved records
      the remotes with an accepted trigger that no pass has answered yet. */
  datatype State = State(
    table: map<RemoteId, Remote>, workers: map<RemoteId, Handle>, routines: map<Wid, Routine>,
    rec: Reconciler, shutdown: bool, halted: bool, unserved: set<RemoteId>)

  datatype Step =
    | EditTable(table: map<RemoteId, Remote>)
    | List | LockScan | ScanOne(id: RemoteId) | UnlockScan
    | Join(w: Wid)
    | LockStart | Restart(id: RemoteId, w: Wid) | StartMissing(id: RemoteId, w: Wid) | UnlockStart
    | Trigger(id: RemoteId)
    | CancelRoot | Stop | Leave
    | BeginFirst(w: Wid) | EndPass(w: Wid) | TickPass(w: Wid) | TakeTrigger(w: Wid) | Exit(w: Wid)

  function EnabledRows(table: map<RemoteId, Remote>): map<RemoteId, Remote> {
    map id | id in table && table[id].enabled :: table[id]
  }

  predicate Locked(s: State) { s.rec.Scanning? || s.rec.Starting? }

  predicate AtPhase(s: State, w: Wid, phase: Phase) {
    w in s.routines && s.routines[w].phase == phase
  }

  predicate Enabled(s: State, step: Step) {
    match step
    case EditTable(_) => true
    case List => s.rec.Idle? && !s.halted
    case LockScan => s.rec.Listed?
    case ScanOne(id) => s.rec.Scanning? && id in s.rec.todo && id in s.workers && s.workers[id].wid in s.routines
    case UnlockScan => s.rec.Scanning? && s.rec.todo == {}
    case Join(w) => s.rec.Waiting? && w in s.rec.stopped && AtPhase(s, w, Exited)
    case LockStart => s.rec.Waiting? && s.rec.stopped == {}
    case Restart(id, w) => s.rec.Starting? && id in s.rec.restart && w !in s.routines
    case StartMissing(id, w) =>
      s.rec.Starting? && s.rec.restart == map[] && id in s.rec.todo && id in s.rec.desired && w !in s.routines
    case UnlockStart => s.rec.Starting? && s.rec.restart == map[] && s.rec.todo == {}
    case Trigger(id) => !Locked(s) && id in s.workers && s.workers[id].wid in s.routines
    case CancelRoot => true
    // the server's own shutdown goroutine calls Stop whatever reconcile is doing, as soon as the mutex is free
    case Stop => !Locked(s) && s.shutdown
    // Start calls it once more before it returns
    case Leave => s.rec.Idle? && s.shutdown && !s.halted
    case BeginFirst(w) => AtPhase(s, w, Fresh)
    case EndPass(w) => AtPhase(s, w, InPass)
    case TickPass(w) => AtPhase(s, w, Selecting)
    case TakeTrigger(w) => AtPhase(s, w, Selecting) && s.routines[w].slot
    case Exit(w) => AtPhase(s, w, Selecting) && s.routines[w].cancelled
  }

  /** One worker of the first critical section's loop. */
  function ScanWorker(s: State, id: RemoteId): State
    requires Enabled(s, ScanOne(id))
  {
    var rec, h := s.rec, s.workers[id];
    if id in rec.desired && !ConfigChanged(h.config, rec.desired[id]) then
      s.(rec := Scanning(rec.desired, rec.todo - {id}, rec.stopped, rec.restart))
    else
      var restart := if id in rec.desired then rec.restart[id := rec.desired[id]] else rec.restart;
      s.(routines := s.routines[h.wid := s.routines[h.wid].(cancelled := true)],
         workers := s.workers - {id},
         rec := Scanning(rec.desired, rec.todo - {id}, rec.stopped + {h.wid}, restart),
         unserved := if id in rec.desired then s.unserved else s.unserved - {id})
  }

  /** startWorkerLocked */
  function StartWorker(s: State, id: RemoteId, config: Remote, w: Wid): State {
    s.(workers := s.workers[id := Handle(w, config)],
       routines := s.routines[w := Routine(id, config, s.shutdown, Fresh, false, 0, 0, s.shutdown)])
  }

  /** A pass begins. Only one that is not already cancelled answers the triggers before it. */
  function BeginPass(s: State, w: Wid, r: Routine): State {
    s.(routines := s.routines[w := r.(phase := InPass)],
       unserved := if r.cancelled then s.unserved else s.unserved - {r.remote})
  }

  function CancelAll(routines: map<Wid, Routine>): map<Wid, Routine> {
    map w | w in routines :: routines[w].(cancelled := true)
  }

  function CancelHandles(s: State): map<Wid, Routine> {
    map w | w in s.routines ::
      if exists id | id in s.workers :: s.workers[id].wid == w then s.routines[w].(cancelled := true)
      else s.routines[w]
  }

  /** Stop does not wait for the workers it cancels. */
  function StopWorkers(s: State, halted: bool): State {
    s.(routines := CancelHandles(s), workers := map[], halted := halted)
  }

  function Apply(s: State, step: Step): State
    requires Enabled(s, step)
  {
    match step
    case EditTable(t) => s.(table := t)
    case List => s.(rec := Listed(EnabledRows(s.table)))
    case LockScan => s.(rec := Scanning(s.rec.desired, s.workers.Keys, {}, map[]))
    case ScanOne(id) => ScanWorker(s, id)
    case UnlockScan => s.(rec := Waiting(s.rec.desired, s.rec.stopped, s.rec.restart))
    case Join(w) => s.(rec := Waiting(s.rec.desired, s.rec.stopped - {w}, s.rec.restart))
    case LockStart => s.(rec := Starting(s.rec.desired, s.rec.restart, s.rec.desired.Keys))
    case Restart(id, w) =>
      StartWorker(s.(rec := Starting(s.rec.desired, s.rec.restart - {id}, s.rec.todo)), id, s.rec.restart[id], w)
    case StartMissing(id, w) =>
      var s' := s.(rec := Starting(s.rec.desired, s.rec.restart, s.rec.todo - {id}));
      if id in s.workers then s' else StartWorker(s', id, s.rec.desired[id], w)
    case UnlockStart => s.(rec := Idle)
    case Trigger(id) =>
      var w := s.workers[id].wid;
      var r := s.routines[w];
      var r' := if r.slot then r else r.(slot := true, filled := r.filled + 1);
      s.(routines := s.routines[w := r'], unserved := s.unserved + {id})
    case CancelRoot => s.(shutdown := true, routines := CancelAll(s.routines))
    case Stop => StopWorkers(s, s.halted)
    case Leave => StopWorkers(s, true)
    case BeginFirst(w) => BeginPass(s, w, s.routines[w])
    case EndPass(w) => s.(routines := s.routines[w := s.routines[w].(phase := Selecting)])
    case TickPass(w) => BeginPass(s, w, s.routines[w])
    case TakeTrigger(w) =>
      BeginPass(s, w, s.routines[w].(slot := false, taken := s.routines[w].taken + 1))
    case Exit(w) => s.(routines := s.routines[w := s.routines[w].(phase := Exited)])
  }

  /** A server process that has just started. */
  predicate Init(s: State) {
    s.workers == map[] && s.routines == map[] && s.rec == Idle && !s.shutdown && !s.halted && s.unserved == {}
  }

  // ----- The invariant -----

  predicate Live(s: State, w: Wid) { w in s.routines && s.routines[w].phase != Exited }

  /** A live worker that can get anything from its remote. */
  predicate Able(s: State, w: Wid) { Live(s, w) && !s.routines[w].stillborn }

  function StoppedSet(rec: Reconciler): set<Wid> {
    if rec.Scanning? || rec.Waiting? then rec.stopped else {}
  }

  function RestartMap(rec: Reconciler): map<RemoteId, Remote> {
    if rec.Idle? || rec.Listed? then map[] else rec.restart
  }

  ghost predicate Handles(s: State) {
    forall id | id in s.workers ::
      var w := s.workers[id].wid;
      && w in s.routines
      && s.routines[w].remote == id
      && s.routines[w].config == s.workers[id].config
      && (!s.shutdown ==> !s.routines[w].cancelled)
  }

  ghost predicate Channels(s: State) {
    forall w | w in s.routines ::
      var r := s.routines[w];
      && (r.phase == Exited ==> r.cancelled)
      && (r.stillborn ==> s.shutdown && r.cancelled)
      && r.filled == r.taken + if r.slot then 1 else 0
  }

  /** Until shutdown a live goroutine is in the manager's map or being waited for. */
  ghost predicate Accounted(s: State) {
    !s.shutdown ==> forall w | Live(s, w) ::
      || (s.routines[w].remote in s.workers && s.workers[s.routines[w].remote].wid == w)
      || w in StoppedSet(s.rec)
  }

  /** For each remote at most one live worker was not born after shutdown. */
  ghost predicate SingleWorker(s: State) {
    forall w, w' | Able(s, w) && Able(s, w') && s.routines[w].remote == s.routines[w'].remote :: w == w'
  }

  ghost predicate StoppedApart(s: State) {
    && (forall w | w in StoppedSet(s.rec) ::
          w in s.routines && s.routines[w].cancelled && s.routines[w].remote !in s.workers)
    && RestartMap(s.rec).Keys !! s.workers.Keys
  }

  /** The workers already passed by the reconciler match the rows it read. */
  ghost predicate Reconciled(s: State) {
    && (!s.rec.Idle? && !s.rec.Listed? ==>
          && (forall id | id in s.rec.restart :: id in s.rec.desired && s.rec.restart[id] == s.rec.desired[id])
          && (forall id | id in s.workers && !(s.rec.Scanning? && id in s.rec.todo) ::
                id in s.rec.desired && !ConfigChanged(s.workers[id].config, s.rec.desired[id])))
    && (s.rec.Starting? ==> forall id | id in s.rec.desired :: id in s.workers || id in s.rec.todo)
  }

  /** No accepted trigger is lost: until shutdown an unanswered one is in the channel of the worker
      in the map, or that worker has yet to begin its first pass, or a restart is pending. */
  ghost predicate TriggersHeld(s: State) {
    !s.shutdown ==> forall id | id in s.unserved ::
      || (id in s.workers && s.workers[id].wid in s.routines
          && var r := s.routines[s.workers[id].wid]; r.slot || r.phase == Fresh)
      || id in RestartMap(s.rec)
  }

  ghost predicate Inv(s: State) {
    && Handles(s) && Channels(s) && Accounted(s) && SingleWorker(s)
    && StoppedApart(s) && Reconciled(s) && TriggersHeld(s)
  }

  lemma InitInv(s: State)
    requires Init(s)
    ensures Inv(s)
  {
  }

  /** Everything but the trigger clause. */
  ghost predicate Frame(s: State) {
    Handles(s) && Channels(s) && Accounted(s) && SingleWorker(s) && StoppedApart(s) && Reconciled(s)
  }

  /** One goroutine moves on: same remote, same context, and it does not come back to life. */
  predicate MovesOn(r: Routine, r': Routine) {
    && r'.remote == r.remote && r'.config == r.config && r'.cancelled == r.cancelled && r'.stillborn == r.stillborn
    && (r.phase == Exited ==> r'.phase == Exited)
    && (r'.phase == Exited ==> r'.cancelled)
    && r'.filled - r'.taken - (if r'.slot then 1 else 0) == r.filled - r.taken - (if r.slot then 1 else 0)
  }

  lemma MoveKeepsCensus(s: State, w: Wid, r': Routine, unserved: set<RemoteId>)
    requires Accounted(s) && SingleWorker(s) && w in s.routines && MovesOn(s.routines[w], r')
    ensures var s' := s.(routines := s.routines[w := r'], unserved := unserved); Accounted(s') && SingleWorker(s')
  {
    var s' := s.(routines := s.routines[w := r'], unserved := unserved);
    assert forall v | Live(s', v) :: Live(s, v) && s'.routines[v].remote == s.routines[v].remote && s'.routines[v].stillborn == s.routines[v].stillborn;
  }

  lemma MoveKeepsFrame(s: State, w: Wid, r': Routine, unserved: set<RemoteId>)
    requires Frame(s) && w in s.routines && MovesOn(s.routines[w], r')
    ensures Frame(s.(routines := s.routines[w := r'], unserved := unserved))
  {
    hide Accounted, SingleWorker;
    MoveKeepsCensus(s, w, r', unserved);
  }

  /** A pass answers its remote's triggers unless it was cancelled before it began, and then the
      remote's triggers are held elsewhere. */
  lemma PassKeepsInv(s: State, w: Wid, r: Routine)
    requires Inv(s) && w in s.routines && MovesOn(s.routines[w], r.(phase := s.routines[w].phase))
    requires r.phase != Exited && s.routines[w].phase != Exited && r.phase == s.routines[w].phase
    ensures Inv(BeginPass(s, w, r))
  {
    var s' := BeginPass(s, w, r);
    MoveKeepsFrame(s, w, r.(phase := InPass), s'.unserved);
    forall id | id in s'.unserved && !s'.shutdown && id !in RestartMap(s.rec)
      ensures id in s'.workers && s'.workers[id].wid in s'.routines
      ensures var q := s'.routines[s'.workers[id].wid]; q.slot || q.phase == Fresh
    {
      assert id in s.unserved && id in s.workers;
      assert s.workers[id].wid == w ==> id == r.remote;
    }
  }

  lemma PhaseKeepsInv(s: State, w: Wid, phase: Phase)
    requires Inv(s) && w in s.routines && s.routines[w].phase != Fresh && s.routines[w].phase != Exited
    requires phase == Exited ==> s.routines[w].cancelled
    ensures Inv(s.(routines := s.routines[w := s.routines[w].(phase := phase)]))
  {
    var s' := s.(routines := s.routines[w := s.routines[w].(phase := phase)]);
    MoveKeepsFrame(s, w, s.routines[w].(phase := phase), s.unserved);
    assert TriggersHeld(s');
  }

  lemma TriggerIsHeld(s: State, id: RemoteId)
    requires Inv(s) && Enabled(s, Trigger(id))
    ensures TriggersHeld(Apply(s, Trigger(id)))
  {
    hide Channels, Accounted, SingleWorker, StoppedApart, Reconciled;
  }

  lemma TriggerKeepsInv(s: State, id: RemoteId)
    requires Inv(s) && Enabled(s, Trigger(id))
    ensures Inv(Apply(s, Trigger(id)))
  {
    hide Handles, Channels, Accounted, SingleWorker, StoppedApart, Reconciled, TriggersHeld;
    var w := s.workers[id].wid;
    var r := s.routines[w];
    TriggerIsHeld(s, id);
    var r' := if r.slot then r else r.(slot := true, filled := r.filled + 1);
    ExitedIsCancelled(s, w);
    assert MovesOn(r, r');
    MoveKeepsFrame(s, w, r', s.unserved + {id});
  }

  lemma ExitedIsCancelled(s: State, w: Wid)
    requires Channels(s) && w in s.routines
    ensures AtPhase(s, w, Exited) ==> s.routines[w].cancelled
  {
  }

  lemma ScanKeepsInv(s: State, id: RemoteId)
    requires Inv(s) && Enabled(s, ScanOne(id))
    ensures Inv(ScanWorker(s, id))
  {
    if id !in s.rec.desired || ConfigChanged(s.workers[id].config, s.rec.desired[id]) {
      ScanKeepsCensus(s, id);
      ScanKeepsHandles(s, id);
      ScanKeepsRest(s, id);
    }
  }

  lemma ScanKeepsCensus(s: State, id: RemoteId)
    requires Inv(s) && s.rec.Scanning? && id in s.workers && id in s.rec.todo
    requires id !in s.rec.desired || ConfigChanged(s.workers[id].config, s.rec.desired[id])
    ensures var s' := ScanWorker(s, id); Accounted(s') && SingleWorker(s')
  {
    var s' := ScanWorker(s, id);
    assert forall v | Live(s', v) :: Live(s, v) && s'.routines[v].remote == s.routines[v].remote && s'.routines[v].stillborn == s.routines[v].stillborn;
  }

  lemma ScanKeepsHandles(s: State, id: RemoteId)
    requires Inv(s) && s.rec.Scanning? && id in s.workers && id in s.rec.todo
    requires id !in s.rec.desired || ConfigChanged(s.workers[id].config, s.rec.desired[id])
    ensures var s' := ScanWorker(s, id); Handles(s') && Channels(s') && TriggersHeld(s')
  {
    hide Accounted, SingleWorker, StoppedApart, Reconciled;
  }

  lemma ScanKeepsRest(s: State, id: RemoteId)
    requires Inv(s) && s.rec.Scanning? && id in s.workers && id in s.rec.todo
    requires id !in s.rec.desired || ConfigChanged(s.workers[id].config, s.rec.desired[id])
    ensures var s' := ScanWorker(s, id); StoppedApart(s') && Reconciled(s')
  {
    hide Accounted, SingleWorker, Channels, TriggersHeld;
    assert ScanWorker(s, id).workers.Keys == s.workers.Keys - {id};
  }

  /** A worker starts for a remote that has no entry in the map: until shutdown nothing stopped is still
      running, so it has no live goroutine either; after shutdown what starts is stillborn. */
  lemma StartKeepsCensus(s: State, rec: Reconciler, id: RemoteId, w: Wid)
    requires Inv(s) && s.rec.Starting? && rec.Starting?
    requires id !in s.workers && w !in s.routines && id in rec.desired
    ensures var s' := StartWorker(s.(rec := rec), id, rec.desired[id], w);
            Accounted(s') && SingleWorker(s')
  {
    hide Handles, Channels, StoppedApart, Reconciled, TriggersHeld;
    var s' := StartWorker(s.(rec := rec), id, rec.desired[id], w);
    assert forall v | Live(s', v) && v != w :: Live(s, v) && s'.routines[v] == s.routines[v];
    assert !s.shutdown ==> forall v | Live(s, v) :: s.routines[v].remote in s.workers && s.routines[v].remote != id;
    assert s.shutdown ==> s'.routines[w].stillborn;
  }

  lemma StartKeepsHandles(s: State, rec: Reconciler, id: RemoteId, w: Wid)
    requires Handles(s) && Channels(s) && rec.Starting?
    requires id !in s.workers && w !in s.routines && id in rec.desired
    ensures var s' := StartWorker(s.(rec := rec), id, rec.desired[id], w);
            Handles(s') && Channels(s')
  {
  }

  lemma StartKeepsReconciled(s: State, rec: Reconciler, id: RemoteId, w: Wid)
    requires StoppedApart(s) && Reconciled(s) && s.rec.Starting? && rec.Starting? && rec.desired == s.rec.desired
    requires id !in s.workers && w !in s.routines && id in rec.desired
    requires rec.restart == s.rec.restart - {id} && s.rec.todo <= rec.todo + {id}
    ensures var s' := StartWorker(s.(rec := rec), id, rec.desired[id], w); StoppedApart(s') && Reconciled(s')
  {
  }

  lemma StartKeepsTriggers(s: State, rec: Reconciler, id: RemoteId, w: Wid)
    requires Handles(s) && TriggersHeld(s) && s.rec.Starting? && rec.Starting?
    requires id !in s.workers && w !in s.routines && id in rec.desired && rec.restart == s.rec.restart - {id}
    ensures TriggersHeld(StartWorker(s.(rec := rec), id, rec.desired[id], w))
  {
  }

  lemma RestartReady(s: State, id: RemoteId)
    requires Inv(s) && s.rec.Starting? && id in s.rec.restart
    ensures id !in s.workers && id in s.rec.desired && s.rec.restart[id] == s.rec.desired[id]
  {
  }

  lemma StartKeepsInv(s: State, rec: Reconciler, id: RemoteId, w: Wid)
    requires Inv(s) && s.rec.Starting? && rec.Starting? && rec.desired == s.rec.desired
    requires id !in s.workers && w !in s.routines && id in rec.desired
    requires rec.restart == s.rec.restart - {id} && s.rec.todo <= rec.todo + {id}
    ensures Inv(StartWorker(s.(rec := rec), id, rec.desired[id], w))
  {
    StartKeepsCensus(s, rec, id, w);
    StartKeepsHandles(s, rec, id, w);
    StartKeepsReconciled(s, rec, id, w);
    StartKeepsTriggers(s, rec, id, w);
  }

  /** Steps of the reconciler that only move it on, leaving the map and the goroutines alone. */
  predicate Advances(s: State, rec: Reconciler) {
    match rec
    case Idle => s.rec.Starting? && s.rec.restart == map[] && s.rec.todo == {}
    case Listed(_) => s.rec.Idle? && !s.halted
    case Scanning(desired, todo, stopped, restart) =>
      s.rec == Listed(desired) && todo == s.workers.Keys && stopped == {} && restart == map[]
    case Waiting(desired, stopped, restart) =>
      || (s.rec.Scanning? && s.rec.todo == {} && s.rec.desired == desired && s.rec.stopped == stopped
          && s.rec.restart == restart)
      || (s.rec.Waiting? && s.rec.desired == desired && s.rec.restart == restart && stopped <= s.rec.stopped
          && forall w | w in s.rec.stopped - stopped :: !Live(s, w))
    case Starting(desired, restart, todo) =>
      || (s.rec == Waiting(desired, {}, restart) && todo == desired.Keys)
      || (s.rec.Starting? && s.rec.desired == desired && s.rec.restart == restart && todo <= s.rec.todo
          && s.rec.todo - todo <= s.workers.Keys)
  }

  lemma AdvanceKeepsInv(s: State, rec: Reconciler)
    requires Inv(s) && Advances(s, rec)
    ensures Inv(s.(rec := rec))
  {
    var s' := s.(rec := rec);
    assert forall w | Live(s', w) :: Live(s, w);
    assert forall w | Live(s, w) && w in StoppedSet(s.rec) :: w in StoppedSet(rec);
    assert StoppedSet(rec) <= StoppedSet(s.rec);
  }

  lemma EditKeepsInv(s: State, table: map<RemoteId, Remote>)
    requires Inv(s)
    ensures Inv(s.(table := table))
  {
  }

  lemma CancelRootKeepsInv(s: State)
    requires Inv(s)
    ensures Inv(Apply(s, CancelRoot))
  {
  }

  lemma StopKeepsInv(s: State, halted: bool)
    requires Inv(s) && !Locked(s) && s.shutdown
    ensures Inv(StopWorkers(s, halted))
  {
  }

  /** Every step keeps the invariant, whatever the interleaving. */
  lemma StepKeepsInv(s: State, step: Step)
    requires Inv(s) && Enabled(s, step)
    ensures Inv(Apply(s, step))
  {
    hide Inv;
    match step
    case EditTable(_) => EditKeepsInv(s, step.table);
    case ScanOne(id) => ScanKeepsInv(s, id);
    case Restart(id, w) =>
      RestartReady(s, id);
      StartKeepsInv(s, Starting(s.rec.desired, s.rec.restart - {id}, s.rec.todo), id, w);
    case StartMissing(id, w) =>
      var rec := Starting(s.rec.desired, s.rec.restart, s.rec.todo - {id});
      if id in s.workers {
        AdvanceKeepsInv(s, rec);
      } else {
        assert s.rec.restart - {id} == s.rec.restart;
        StartKeepsInv(s, rec, id, w);
      }
    case Trigger(id) => TriggerKeepsInv(s, id);
    case CancelRoot => CancelRootKeepsInv(s);
    case Stop => StopKeepsInv(s, s.halted);
    case Leave => StopKeepsInv(s, true);
    case BeginFirst(w) => PassKeepsInv(s, w, s.routines[w]);
    case TickPass(w) => PassKeepsInv(s, w, s.routines[w]);
    case TakeTrigger(w) =>
      PassKeepsInv(s, w, s.routines[w].(slot := false, taken := s.routines[w].taken + 1));
    case EndPass(w) => PhaseKeepsInv(s, w, Selecting);
    case Exit(w) => PhaseKeepsInv(s, w, Exited);
    case _ => AdvanceKeepsInv(s, Apply(s, step).rec);
  }

  // ----- Which workers a reconciliation leaves alone -----

  /** The scan leaves a worker alone if and only if its remote is wanted and its configuration agrees
      with the row in all six settings; another one is cancelled, waited for, and, if wanted, restarted
      with the row. */
  lemma ScanLeavesIff(s: State, id: RemoteId)
    requires Enabled(s, ScanOne(id))
    ensures var s', h := Apply(s, ScanOne(id)), s.workers[id];
            var agrees := id in s.rec.desired
                          && h.config.baseURL == s.rec.desired[id].baseURL
                          && h.config.remoteAPIKeyID == s.rec.desired[id].remoteAPIKeyID
                          && h.config.pollIntervalSec == s.rec.desired[id].pollIntervalSec
                          && h.config.syncAllMaps == s.rec.desired[id].syncAllMaps
                          && h.config.syncNewMaps == s.rec.desired[id].syncNewMaps
                          && h.config.syncGeoObjects == s.rec.desired[id].syncGeoObjects;
            && (agrees <==> id in s'.workers)
            && (agrees ==> s'.workers == s.workers && s'.routines == s.routines && s'.rec.restart == s.rec.restart)
            && (!agrees ==>
                  && s'.workers == s.workers - {id} && s'.routines[h.wid].cancelled && h.wid in s'.rec.stopped
                  && s'.rec.restart == if id in s.rec.desired then s.rec.restart[id := s.rec.desired[id]] else s.rec.restart)
  {
  }

  /** The worker's configuration agrees with the row the reconciler read, or no reconciliation is under
      way. */
  predicate Untouched(s: State, id: RemoteId, row: Remote) {
    && id in s.workers
    && s.workers[id].config.baseURL == row.baseURL
    && s.workers[id].config.remoteAPIKeyID == row.remoteAPIKeyID
    && s.workers[id].config.pollIntervalSec == row.pollIntervalSec
    && s.workers[id].config.syncAllMaps == row.syncAllMaps
    && s.workers[id].config.syncNewMaps == row.syncNewMaps
    && s.workers[id].config.syncGeoObjects == row.syncGeoObjects
    && (s.rec.Idle? || (id in s.rec.desired && s.rec.desired[id] == row && id !in RestartMap(s.rec)))
  }

  predicate IsReconcilerStep(step: Step) {
    || step.List? || step.LockScan? || step.ScanOne? || step.UnlockScan? || step.Join? || step.LockStart?
    || step.Restart? || step.StartMissing? || step.UnlockStart?
  }

  lemma OtherStepLeavesMap(s: State, step: Step)
    requires Enabled(s, step) && !IsReconcilerStep(step) && !step.Stop? && !step.Leave?
    ensures Apply(s, step).workers == s.workers && Apply(s, step).rec == s.rec
  {
  }

  lemma ReconcilerLeavesAgreeing(s: State, step: Step, id: RemoteId, row: Remote)
    requires Enabled(s, step) && Untouched(s, id, row) && IsReconcilerStep(step) && !step.List? && !step.ScanOne?
    ensures Untouched(Apply(s, step), id, row) && Apply(s, step).workers[id] == s.workers[id]
  {
  }

  lemma StepLeavesAgreeing(s: State, step: Step, id: RemoteId, row: Remote)
    requires Enabled(s, step) && Untouched(s, id, row)
    requires !step.List? && !step.Stop? && !step.Leave?
    ensures Untouched(Apply(s, step), id, row) && Apply(s, step).workers[id] == s.workers[id]
  {
    hide Apply, Enabled;
    if !IsReconcilerStep(step) {
      OtherStepLeavesMap(s, step);
    } else if step.ScanOne? {
      ScanLeavesAgreeing(s, step.id, id, row);
    } else {
      ReconcilerLeavesAgreeing(s, step, id, row);
    }
  }

  lemma ScanLeavesAgreeing(s: State, other: RemoteId, id: RemoteId, row: Remote)
    requires Enabled(s, ScanOne(other)) && Untouched(s, id, row)
    ensures var s' := Apply(s, ScanOne(other)); Untouched(s', id, row) && s'.workers[id] == s.workers[id]
  {
  }

  // ----- Triggers -----

  /** Trigger is refused for a remote without a worker and for no other; an accepted one leaves a signal in
      the worker's channel, its own or the one it found there, and the other workers alone. */
  lemma TriggerAcceptedIff(s: State, id: RemoteId)
    requires Handles(s) && !Locked(s)
    ensures Enabled(s, Trigger(id)) <==> id in s.workers
    ensures id in s.workers ==>
              var w, s' := s.workers[id].wid, Apply(s, Trigger(id));
              && s'.routines[w].slot && id in s'.unserved && s'.workers == s.workers
              && s'.routines[w].filled == s.routines[w].filled + (if s.routines[w].slot then 0 else 1)
              && forall v | v in s.routines && v != w :: v in s'.routines && s'.routines[v] == s.routines[v]
  {
  }

  // ----- Cancellation -----

  lemma StopCancels(s: State, step: Step, id: RemoteId)
    requires Enabled(s, step) && (step.Stop? || step.Leave?)
    requires id in s.workers && s.workers[id].wid in s.routines
    ensures var s' := Apply(s, step);
            s'.workers == map[] && s.workers[id].wid in s'.routines && s'.routines[s.workers[id].wid].cancelled
  {
  }

  ghost predicate CancelledByShutdown(s: State) {
    s.shutdown ==> forall w | w in s.routines :: s.routines[w].cancelled
  }

  lemma StepCancelsByShutdown(s: State, step: Step)
    requires Enabled(s, step) && CancelledByShutdown(s)
    ensures CancelledByShutdown(Apply(s, step))
  {
  }
}
