/** The order in which a mirrored map's versions arrive: oldest first, so that an interrupted sync
    never leaves a hole below a version it has recorded. */
module MirrorOrder {
  import opened Archive
  import opened MirrorPull
  import opened TileIndex

  /** The remote only ever publishes a version at least as recent as all it lists. */
  predicate PublishesInOrder(s: State, step: EnvStep) {
    step.Publish? ==> forall u | u in s.listed :: s.listed[u] <= step.at
  }

  type History = map<Version, Time>

  /** No version missing locally is strictly older than one that is present. */
  ghost predicate DownwardClosed(listed: History, recorded: History) {
    forall v, u | v in recorded && v in listed && u in listed && listed[u] < listed[v] :: u in recorded
  }

  ghost predicate Dated(listed: History, recorded: History) {
    forall v | v in recorded :: v in listed && recorded[v] == listed[v]
  }

  /** A version list read earlier: what it lacks is at least as recent as what it holds. */
  ghost predicate SnapOk(listed: History, snap: History) {
    && (forall v | v in snap :: v in listed && listed[v] == snap[v])
    && (forall u, v | u in listed && u !in snap && v in snap :: snap[v] <= listed[u])
  }

  ghost predicate Oldest(snap: History, queue: seq<Version>) {
    && (forall i | 0 <= i < |queue| :: queue[i] in snap)
    && (forall i, j | 0 <= i < j < |queue| :: queue[i] != queue[j] && snap[queue[i]] <= snap[queue[j]])
  }

  ghost predicate TaskOrder(listed: History, recorded: History, task: Task) {
    match task
    case Checking(_, snap, has) => SnapOk(listed, snap) && forall v | v in has && has[v] :: v in recorded
    case Pulling(_, snap, queue, _) =>
      SnapOk(listed, snap) && Oldest(snap, queue) && forall v | v in snap :: v in recorded || v in queue
    case _ => true
  }

  ghost predicate Order(s: State) {
    && Dated(s.listed, s.recorded)
    && DownwardClosed(s.listed, s.recorded)
    && forall w | w in s.tasks :: TaskOrder(s.listed, s.recorded, s.tasks[w])
  }

  lemma InitOrder(s: State)
    requires Init(s)
    ensures Order(s)
  {
  }

  lemma EnvKeepsOrder(s: State, step: EnvStep)
    requires Order(s) && EnvEnabled(s, step) && PublishesInOrder(s, step)
    ensures Order(EnvApply(s, step))
  {
    if step.Publish? {
      forall w | w in s.tasks ensures TaskOrder(s.listed[step.v := step.at], s.recorded, s.tasks[w]) {
        assert TaskOrder(s.listed, s.recorded, s.tasks[w]);
      }
    } else {
      hide Dated, DownwardClosed, TaskOrder;
    }
  }

  /** Recording the head of the queue: everything strictly older was in the list, is no longer in
      the queue, and so is recorded. */
  lemma RecordKeepsTaskOrder(listed: History, recorded: History, snap: History, queue: seq<Version>)
    requires SnapOk(listed, snap) && Oldest(snap, queue) && queue != []
    requires forall v | v in snap :: v in recorded || v in queue
    requires Dated(listed, recorded) && DownwardClosed(listed, recorded)
    ensures var recorded' := if queue[0] in recorded then recorded else recorded[queue[0] := snap[queue[0]]];
            && Dated(listed, recorded') && DownwardClosed(listed, recorded')
            && Oldest(snap, queue[1..])
            && forall v | v in snap :: v in recorded' || v in queue[1..]
  {
    var v := queue[0];
    OlderIsRecorded(listed, recorded, snap, queue);
    SkipInOrder(recorded[v := snap[v]], snap, queue);
    SkipInOrder(recorded, snap, queue);
    hide Oldest;
  }

  lemma OlderIsRecorded(listed: History, recorded: History, snap: History, queue: seq<Version>)
    requires SnapOk(listed, snap) && Oldest(snap, queue) && queue != []
    requires forall v | v in snap :: v in recorded || v in queue
    ensures queue[0] in snap && queue[0] in listed && listed[queue[0]] == snap[queue[0]]
    ensures forall u | u in listed && listed[u] < listed[queue[0]] :: u in recorded
  {
    forall u | u in listed && listed[u] < listed[queue[0]] ensures u in recorded {
      assert u in snap;
      assert u !in queue;
    }
  }

  lemma RecordKeepsOrder(arch: Archives, s: State, w: Wid)
    requires Order(s) && w in s.tasks && Enabled(arch, s, s.tasks[w], Record)
    ensures Order(Apply(arch, s, w, s.tasks[w], Record))
  {
    var task, s' := s.tasks[w], Apply(arch, s, w, s.tasks[w], Record);
    RecordKeepsTaskOrder(s.listed, s.recorded, task.snap, task.queue);
    hide Dated, DownwardClosed, SnapOk, Oldest;
    forall w' | w' in s'.tasks ensures TaskOrder(s'.listed, s'.recorded, s'.tasks[w']) {
      assert w' != w ==> TaskOrder(s.listed, s.recorded, s.tasks[w']);
    }
  }

  lemma MoveKeepsOrder(s: State, s': State, w: Wid)
    requires Order(s) && s'.listed == s.listed && s'.recorded == s.recorded
    requires s'.tasks == s.tasks - {w}
             || (w in s'.tasks && s'.tasks == s.tasks[w := s'.tasks[w]] && TaskOrder(s.listed, s.recorded, s'.tasks[w]))
    ensures Order(s')
  {
    hide Dated, DownwardClosed, TaskOrder;
  }

  lemma TaskOfOrder(s: State, w: Wid)
    requires Order(s) && w in s.tasks
    ensures TaskOrder(s.listed, s.recorded, s.tasks[w])
  {
  }

  lemma TaskStepKeepsOrder(arch: Archives, s: State, w: Wid, step: TaskStep)
    requires Order(s) && w in s.tasks && Enabled(arch, s, s.tasks[w], step)
    ensures Order(Apply(arch, s, w, s.tasks[w], step))
  {
    hide Complete, Extract, WithIndex, Order;
    if step.Record? {
      RecordKeepsOrder(arch, s, w);
    } else {
      OneTaskMoves(arch, s, w, step);
      TaskOfOrder(s, w);
      NextTaskOrder(arch, s, w, step);
      MoveKeepsOrder(s, Apply(arch, s, w, s.tasks[w], step), w);
    }
  }

  /** A step of one task leaves the other tasks and both histories alone, but for Record. */
  lemma OneTaskMoves(arch: Archives, s: State, w: Wid, step: TaskStep)
    requires w in s.tasks && Enabled(arch, s, s.tasks[w], step) && !step.Record?
    ensures var s' := Apply(arch, s, w, s.tasks[w], step);
            && s'.listed == s.listed && s'.recorded == s.recorded
            && (w in s'.tasks ==> s'.tasks == s.tasks[w := s'.tasks[w]])
            && (w !in s'.tasks ==> s'.tasks == s.tasks - {w})
  {
    hide Extract, WithIndex, IsPullOrder, IsPart, Detached;
  }

  lemma NextTaskOrder(arch: Archives, s: State, w: Wid, step: TaskStep)
    requires w in s.tasks && TaskOrder(s.listed, s.recorded, s.tasks[w])
    requires Enabled(arch, s, s.tasks[w], step) && !step.Record?
    ensures var s' := Apply(arch, s, w, s.tasks[w], step);
            w in s'.tasks ==> TaskOrder(s.listed, s.recorded, s'.tasks[w])
  {
    hide Extract, WithIndex, IsPullOrder, SnapOk, Oldest;
    var task := s.tasks[w];
    match step
    case ListVersions => SnapIsOk(s.listed);
    case CheckRecorded => SkipInOrder(s.recorded, task.snap, task.queue);
    case Plan(queue) => PlanInOrder(s.recorded, task.has, task.snap, queue);
    case _ =>
  }

  lemma SnapIsOk(listed: History)
    ensures SnapOk(listed, listed)
  {
  }

  lemma SkipInOrder(recorded: History, snap: History, queue: seq<Version>)
    requires Oldest(snap, queue) && queue != [] && forall v | v in snap :: v in recorded || v in queue
    ensures Oldest(snap, queue[1..])
    ensures queue[0] in recorded ==> forall v | v in snap :: v in recorded || v in queue[1..]
  {
    assert queue == [queue[0]] + queue[1..];
  }

  lemma PlanInOrder(recorded: History, has: map<Version, bool>, snap: History, queue: seq<Version>)
    requires IsPullOrder(has, snap, queue) && forall v | v in has && has[v] :: v in recorded
    ensures Oldest(snap, queue) && forall v | v in snap :: v in recorded || v in queue
  {
    assert forall i | 0 <= i < |queue| :: queue[i] in queue;
  }
}
