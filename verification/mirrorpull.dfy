/** One mirrored map: its version directories on disk, its rows, the cached answers about it, and
    the sync tasks at work on it, as a transition system. syncMap and pullVersion are taken one file
    or table operation at a time; any operation may fail, and a crash may come between any two. */
module MirrorPull {
  import opened Archive
  import Numerals
  import opened Paths
  import opened TileIndex
  import opened Wrappers

  type Version = string
  type Time = int
  type Wid = nat
  type Sid = nat

  /** What the remote serves as each version's archive. It never changes. */
  type Archives = Version -> Archive

  /** Where pullVersion stands with the version at the head of the queue. */
  datatype Pull =
    | AtCheck
    | Downloading
    | Extracting(sid: Sid)
    | Extracted(sid: Sid)
    | Indexed(sid: Sid)
    | Clearing(sid: Sid)
    | Cleared(sid: Sid)
    | Renamed

  /** Where syncMap stands. remoteCurrent is the current version in the remote's map list, read
      before the version list; snap is the version list. */
  datatype Task =
    | Listing(remoteCurrent: string)
    | Checking(remoteCurrent: string, snap: map<Version, Time>, has: map<Version, bool>)
    | Pulling(remoteCurrent: string, snap: map<Version, Time>, queue: seq<Version>, pull: Pull)
    | Aliasing(remoteCurrent: string, toSet: seq<(string, Version)>, toDelete: seq<string>, checked: bool)

  /** A cache fill in flight: an answer read from the tables and not yet stored. */
  datatype Fill = CurrentFill(version: string) | AliasFill(alias: string, target: Version)

  /** What the index backfill is about with one version: it looks at the tiles, then opens the index file,
      which empties it, and writes. */
  datatype Scan = Scanning(seen: set<Path>) | Writing(seen: set<Path>, written: nat)

  /** backfill holds the versions that the index backfill, which runs beside everything else after a
      start, has found without an index and not yet done with. straddled records the versions renamed
      into place while the backfill had them in hand. */
  datatype State = State(
    listed: map<Version, Time>,
    recorded: map<Version, Time>, current: string, aliases: map<string, Version>,
    dirs: map<Version, Tree>, staging: map<Sid, Tree>,
    tasks: map<Wid, Task>,
    currentCache: Option<string>, aliasCache: map<string, Version>, fills: set<Fill>,
    backfill: map<Version, Scan>, straddled: set<Version>)

  datatype TaskStep =
    | ListVersions
    | CheckLocal(v: Version)
    | Plan(queue: seq<Version>)
    | CheckRecorded
    | Download(sid: Sid)
    | ExtractSome(t: Tree)
    | FinishExtract
    | WriteIndex
    | StartClear
    | ClearSome(t: Tree)
    | FinishClear
    | Rename
    | Record
    | ListAliases(toSet: seq<(string, Version)>, toDelete: seq<string>)
    | CheckAlias
    | SetAlias
    | DeleteAlias
    | SetCurrent
    | Fail(leftover: Option<Tree>)

  /** What else happens to the map: the remote publishes, requests read and fill caches, entries
      expire or are invalidated, the backfill looks for versions without an index, at their tiles one at
      a time, and writes an index of what it saw, a part at a time. It may give up anywhere. */
  datatype EnvStep =
    | Publish(v: Version, at: Time)
    | ReadCurrent
    | FillCurrent(v: string)
    | DropCurrent
    | ReadAlias(alias: string)
    | FillAlias(alias: string, v: Version)
    | DropAlias(alias: string)
    | BackfillStat(v: Version)
    | BackfillSee(v: Version, tile: Path)
    | BackfillOpen(v: Version)
    | BackfillWrite(v: Version, written: nat)
    | BackfillFinish(v: Version)
    | BackfillDrop(v: Version)

  ghost predicate IsPullOrder(has: map<Version, bool>, snap: map<Version, Time>, queue: seq<Version>) {
    && (forall v :: v in queue <==> v in snap && !(v in has && has[v]))
    && (forall i, j | 0 <= i < j < |queue| :: queue[i] != queue[j])
    && (forall i, j | 0 <= i < j < |queue| && queue[i] in snap && queue[j] in snap ::
          snap[queue[i]] <= snap[queue[j]])
  }

  function Extraction(arch: Archives, v: Version): Result<Tree, FsError> {
    Extract(arch(v).format, [], arch(v).entries)
  }

  /** t is v's extracted archive together with its rebuilt index. */
  ghost predicate Complete(arch: Archives, v: Version, t: Tree) {
    Extraction(arch, v).Ok? && t == WithIndex(Extraction(arch, v).value)
  }

  /** t is v's extracted archive together with an index, the right one or not. */
  ghost predicate CompleteButIndex(arch: Archives, v: Version, t: Tree) {
    && Extraction(arch, v).Ok? && INDEX_PATH in t.files
    && t == Extraction(arch, v).value.(files := Extraction(arch, v).value.files[INDEX_PATH := t.files[INDEX_PATH]])
  }

  predicate PullingAt(task: Task) { task.Pulling? && |task.queue| > 0 }

  function StagingOf(task: Task): set<Sid> {
    if task.Pulling? && !task.pull.AtCheck? && !task.pull.Downloading? && !task.pull.Renamed? then {task.pull.sid} else {}
  }

  /** Whether task can take the step. */
  ghost predicate Enabled(arch: Archives, s: State, task: Task, step: TaskStep) {
    match step
    case ListVersions => task.Listing?
    case CheckLocal(v) => task.Checking? && v in task.snap && v !in task.has
    case Plan(queue) => task.Checking? && task.has.Keys == task.snap.Keys && IsPullOrder(task.has, task.snap, queue)
    case CheckRecorded => PullingAt(task) && task.pull.AtCheck?
    case Download(sid) => PullingAt(task) && task.pull.Downloading? && sid !in s.staging
    case ExtractSome(t) => PullingAt(task) && task.pull.Extracting?
    case FinishExtract => PullingAt(task) && task.pull.Extracting? && Extraction(arch, task.queue[0]).Ok?
    case WriteIndex => PullingAt(task) && task.pull.Extracted? && task.pull.sid in s.staging
    case StartClear => PullingAt(task) && task.pull.Indexed?
    case ClearSome(t) =>
      PullingAt(task) && task.pull.Clearing? && task.queue[0] in s.dirs && IsPart(t, s.dirs[task.queue[0]])
    case FinishClear => PullingAt(task) && task.pull.Clearing?
    case Rename =>
      PullingAt(task) && task.pull.Cleared? && task.queue[0] !in s.dirs && task.pull.sid in s.staging
    case Record => PullingAt(task) && task.pull.Renamed? && task.queue[0] in task.snap
    case ListAliases(toSet, toDelete) => task.Pulling? && task.queue == [] && task.pull.AtCheck?
    case CheckAlias => task.Aliasing? && task.toSet != [] && !task.checked
    case SetAlias => task.Aliasing? && task.toSet != [] && task.checked && task.toSet[0].1 in s.recorded
    case DeleteAlias => task.Aliasing? && task.toSet == [] && task.toDelete != []
    case SetCurrent => task.Aliasing? && task.toSet == [] && task.toDelete == []
    case Fail(leftover) => true
  }

  /** What is left of a directory that is being removed. */
  predicate IsPart(t: Tree, of: Tree) {
    && t.dirs <= of.dirs && t.files.Keys <= of.files.Keys
    && forall p | p in t.files :: t.files[p] == of.files[p]
  }

  /** A new directory in v's place: an index file opened before it was that of the old one. */
  function Detached(backfill: map<Version, Scan>, v: Version): map<Version, Scan> {
    if v in backfill && backfill[v].Writing? then backfill - {v} else backfill
  }

  function With(s: State, w: Wid, task: Task): State { s.(tasks := s.tasks[w := task]) }

  /** The deferred removal of the staging directory is best effort. */
  function Abandon(s: State, w: Wid, task: Task, leftover: Option<Tree>): State {
    var gone := s.staging - StagingOf(task);
    s.(tasks := s.tasks - {w},
       staging := if leftover.Some? then map sid | sid in s.staging ::
                    if sid in StagingOf(task) then leftover.value else s.staging[sid]
                  else gone)
  }

  ghost function Apply(arch: Archives, s: State, w: Wid, task: Task, step: TaskStep): State
    requires Enabled(arch, s, task, step)
  {
    match step
    case ListVersions => With(s, w, Checking(task.remoteCurrent, s.listed, map[]))
    case CheckLocal(v) => With(s, w, Checking(task.remoteCurrent, task.snap, task.has[v := v in s.recorded]))
    case Plan(queue) => With(s, w, Pulling(task.remoteCurrent, task.snap, queue, AtCheck))
    case CheckRecorded =>
      With(s, w, if task.queue[0] in s.recorded
                 then Pulling(task.remoteCurrent, task.snap, task.queue[1..], AtCheck)
                 else Pulling(task.remoteCurrent, task.snap, task.queue, Downloading))
    case Download(sid) => With(s, w, task.(pull := Extracting(sid))).(staging := s.staging[sid := EMPTY_TREE])
    case ExtractSome(t) => s.(staging := s.staging[task.pull.sid := t])
    case FinishExtract =>
      With(s, w, task.(pull := Extracted(task.pull.sid)))
      .(staging := s.staging[task.pull.sid := Extraction(arch, task.queue[0]).value])
    case WriteIndex =>
      With(s, w, task.(pull := Indexed(task.pull.sid)))
      .(staging := s.staging[task.pull.sid := WithIndex(s.staging[task.pull.sid])])
    case StartClear => With(s, w, task.(pull := Clearing(task.pull.sid)))
    case ClearSome(t) => s.(dirs := s.dirs[task.queue[0] := t])
    case FinishClear => With(s, w, task.(pull := Cleared(task.pull.sid))).(dirs := s.dirs - {task.queue[0]})
    case Rename =>
      With(s, w, task.(pull := Renamed))
      .(dirs := s.dirs[task.queue[0] := s.staging[task.pull.sid]], staging := s.staging - {task.pull.sid},
        backfill := Detached(s.backfill, task.queue[0]),
        straddled := s.straddled - {task.queue[0]} + {task.queue[0]} * Detached(s.backfill, task.queue[0]).Keys)
    case Record =>
      var v := task.queue[0];
      With(s, w, task.(pull := AtCheck, queue := task.queue[1..]))
      .(recorded := if v in s.recorded then s.recorded else s.recorded[v := task.snap[v]])
    case ListAliases(toSet, toDelete) => With(s, w, Aliasing(task.remoteCurrent, toSet, toDelete, false))
    case CheckAlias =>
      With(s, w, if task.toSet[0].1 in s.recorded
                 then Aliasing(task.remoteCurrent, task.toSet, task.toDelete, true)
                 else Aliasing(task.remoteCurrent, task.toSet[1..], task.toDelete, false))
    case SetAlias =>
      With(s, w, task.(toSet := task.toSet[1..], checked := false))
      .(aliases := s.aliases[task.toSet[0].0 := task.toSet[0].1])
    case DeleteAlias =>
      With(s, w, task.(toDelete := task.toDelete[1..])).(aliases := s.aliases - {task.toDelete[0]})
    case SetCurrent =>
      var c := task.remoteCurrent;
      s.(tasks := s.tasks - {w}, current := if c != "" && c in s.recorded then c else s.current)
    case Fail(leftover) => Abandon(s, w, task, leftover)
  }

  ghost predicate EnvEnabled(s: State, step: EnvStep) {
    match step
    // the remote runs the same code, which numbers its versions
    case Publish(v, at) => v !in s.listed && Numerals.IsNumeric(v)
    case FillCurrent(v) => CurrentFill(v) in s.fills
    case ReadAlias(alias) => alias in s.aliases
    case FillAlias(alias, v) => AliasFill(alias, v) in s.fills
    case BackfillStat(v) => Numerals.IsNumeric(v) && v in s.dirs && INDEX_PATH !in s.dirs[v].files && v !in s.backfill
    case BackfillSee(v, tile) => v in s.backfill && s.backfill[v].Scanning? && v in s.dirs && tile in TilesAt(s.dirs[v])
    case BackfillOpen(v) => v in s.backfill && s.backfill[v].Scanning? && v in s.dirs
    case BackfillWrite(v, n) =>
      && v in s.backfill && s.backfill[v].Writing? && v in s.dirs
      && s.backfill[v].written < n < |IndexOfSeen(s.backfill[v].seen)|
    case BackfillFinish(v) => v in s.backfill && s.backfill[v].Writing? && v in s.dirs
    case _ => true
  }

  /** The file's contents for the tiles the backfill saw. */
  ghost function IndexOfSeen(seen: set<Path>): Bytes { EncodeIndex(SortedCoords(seen)) }

  /** The backfill has n bytes of the index written. */
  ghost function Wrote(s: State, v: Version, seen: set<Path>, n: nat): State
    requires v in s.dirs && n <= |IndexOfSeen(seen)|
  {
    s.(dirs := s.dirs[v := Reindexed(s.dirs[v], IndexOfSeen(seen)[..n])], backfill := s.backfill[v := Writing(seen, n)])
  }

  /** It has all of it written. */
  ghost function Finished(s: State, v: Version): State
    requires v in s.dirs && v in s.backfill
  {
    s.(dirs := s.dirs[v := Reindexed(s.dirs[v], IndexOfSeen(s.backfill[v].seen))], backfill := s.backfill - {v})
  }

  ghost function EnvApply(s: State, step: EnvStep): State
    requires EnvEnabled(s, step)
  {
    match step
    case Publish(v, at) => s.(listed := s.listed[v := at])
    case ReadCurrent => s.(fills := s.fills + {CurrentFill(s.current)})
    case FillCurrent(v) => s.(currentCache := Some(v))
    case DropCurrent => s.(currentCache := None)
    case ReadAlias(alias) => s.(fills := s.fills + {AliasFill(alias, s.aliases[alias])})
    case FillAlias(alias, v) => s.(aliasCache := s.aliasCache[alias := v])
    case DropAlias(alias) => s.(aliasCache := s.aliasCache - {alias})
    case BackfillStat(v) => s.(backfill := s.backfill[v := Scanning({})])
    case BackfillSee(v, tile) => s.(backfill := s.backfill[v := Scanning(s.backfill[v].seen + {tile})])
    case BackfillOpen(v) => Wrote(s, v, s.backfill[v].seen, 0)
    case BackfillWrite(v, n) => Wrote(s, v, s.backfill[v].seen, n)
    case BackfillFinish(v) => Finished(s, v)
    case BackfillDrop(v) => s.(backfill := s.backfill - {v})
  }

  function StartTask(s: State, w: Wid, remoteCurrent: string): State {
    With(s, w, Listing(remoteCurrent))
  }

  /** A crash ends every task and request; the disk and the tables stay as they are. */
  function Crash(s: State): State {
    s.(tasks := map[], currentCache := None, aliasCache := map[], fills := {}, backfill := map[])
  }

  /** A map nothing has been mirrored of yet. */
  predicate Init(s: State) {
    && s.recorded == map[] && s.current == "" && s.aliases == map[] && s.dirs == map[]
    && s.tasks == map[] && s.currentCache == None && s.aliasCache == map[] && s.fills == {}
    && s.backfill == map[] && s.straddled == {}
    && forall v | v in s.listed :: Numerals.IsNumeric(v)
  }

  // ----- The invariant -----

  /** v's directory is in place, complete but for an index that the backfill may have replaced if it had
      the version in hand when the directory was put there. */
  ghost predicate InPlace(arch: Archives, s: State, v: Version) {
    && v in s.dirs && CompleteButIndex(arch, v, s.dirs[v])
    && (v !in s.straddled ==> Complete(arch, v, s.dirs[v]) && v !in s.backfill)
    && (v in s.backfill ==> HandOk(s.dirs[v], s.backfill[v]))
  }

  /** What the backfill has written of an index so far is what the file holds, and not all of it. */
  ghost predicate HandOk(t: Tree, scan: Scan) {
    scan.Writing? ==>
      && scan.written < |IndexOfSeen(scan.seen)|
      && INDEX_PATH in t.files && t.files[INDEX_PATH] == IndexOfSeen(scan.seen)[..scan.written]
  }

  /** Every recorded version has its directory in place. */
  ghost predicate RecordedComplete(arch: Archives, s: State) {
    forall v | v in s.recorded :: InPlace(arch, s, v)
  }

  ghost predicate TaskOk(arch: Archives, s: State, task: Task) {
    task.Pulling? && !task.pull.AtCheck? ==>
      && |task.queue| > 0
      && task.queue[0] !in s.recorded
      && match task.pull {
           case Extracted(sid) =>
             sid in s.staging && Extraction(arch, task.queue[0]) == Ok(s.staging[sid])
           case Indexed(sid) => sid in s.staging && Complete(arch, task.queue[0], s.staging[sid])
           case Clearing(sid) => sid in s.staging && Complete(arch, task.queue[0], s.staging[sid])
           case Cleared(sid) => sid in s.staging && Complete(arch, task.queue[0], s.staging[sid])
           case Renamed => InPlace(arch, s, task.queue[0])
           case _ => true
         }
  }

  ghost predicate TasksOk(arch: Archives, s: State) {
    forall w | w in s.tasks :: TaskOk(arch, s, s.tasks[w])
  }

  /** v is an answer that resolves to a recorded version, or to no version at all. */
  predicate Resolves(s: State, v: string) { v == "" || v in s.recorded }

  /** Every stored, cached or in-flight answer about this map resolves to a recorded version. */
  ghost predicate AnswersRecorded(s: State) {
    && Resolves(s, s.current)
    && (s.currentCache.Some? ==> Resolves(s, s.currentCache.value))
    && (forall a | a in s.aliases :: s.aliases[a] in s.recorded)
    && (forall a | a in s.aliasCache :: s.aliasCache[a] in s.recorded)
    && (forall f | f in s.fills :: if f.CurrentFill? then Resolves(s, f.version) else f.target in s.recorded)
  }

  ghost predicate Inv(arch: Archives, s: State) {
    RecordedComplete(arch, s) && TasksOk(arch, s) && AnswersRecorded(s)
  }

  /** At most one task at work on the map: what the manager's single worker per remote provides. */
  ghost predicate Exclusive(s: State) {
    forall w, w' | w in s.tasks && w' in s.tasks :: w == w'
  }

  predicate IsBackfill(step: EnvStep) {
    || step.BackfillStat? || step.BackfillSee? || step.BackfillOpen? || step.BackfillWrite? || step.BackfillFinish?
    || step.BackfillDrop?
  }

  lemma SameDisk(arch: Archives, s: State, s': State)
    requires RecordedComplete(arch, s) && TasksOk(arch, s)
    requires s'.recorded == s.recorded && s'.dirs == s.dirs && s'.staging == s.staging && s'.tasks == s.tasks
    requires s'.backfill == s.backfill && s'.straddled == s.straddled
    ensures RecordedComplete(arch, s') && TasksOk(arch, s')
  {
    hide Complete, CompleteButIndex, Extract, WithIndex;
  }

  lemma RequestKeepsAnswers(s: State, step: EnvStep)
    requires AnswersRecorded(s) && EnvEnabled(s, step)
    ensures AnswersRecorded(EnvApply(s, step))
  {
  }

  lemma RequestKeepsInv(arch: Archives, s: State, step: EnvStep)
    requires Inv(arch, s) && EnvEnabled(s, step) && !IsBackfill(step)
    ensures Inv(arch, EnvApply(s, step))
  {
    hide RecordedComplete, TasksOk, AnswersRecorded;
    SameDisk(arch, s, EnvApply(s, step));
    RequestKeepsAnswers(s, step);
  }

  /** The backfill touches one version: nothing of its directory but the index, and that only with the
      version in hand, which it takes up only without an index. */
  ghost predicate Touches(s: State, s': State, u: Version) {
    && s' == s.(dirs := s'.dirs, backfill := s'.backfill)
    && s'.dirs.Keys == s.dirs.Keys && (forall v | v in s.dirs && v != u :: s'.dirs[v] == s.dirs[v])
    && (forall v | v != u :: if v in s.backfill then v in s'.backfill && s'.backfill[v] == s.backfill[v] else v !in s'.backfill)
    && (u in s.dirs && u !in s.backfill ==> s'.dirs[u] == s.dirs[u])
    && (u in s.dirs && s'.dirs[u] != s.dirs[u] ==>
          INDEX_PATH in s'.dirs[u].files && s'.dirs[u] == Reindexed(s.dirs[u], s'.dirs[u].files[INDEX_PATH]))
    && (u in s'.backfill && u !in s.backfill ==> u in s.dirs && INDEX_PATH !in s.dirs[u].files)
    && (u in s'.backfill && u in s.dirs ==> HandOk(s'.dirs[u], s'.backfill[u]))
  }

  lemma BackfillTouches(s: State, step: EnvStep)
    requires EnvEnabled(s, step) && IsBackfill(step)
    ensures Touches(s, EnvApply(s, step), step.v)
  {
    hide IndexOfSeen, TilesAt;
    var v := step.v;
    if step.BackfillOpen? || step.BackfillWrite? {
      var n := if step.BackfillWrite? then step.written else 0;
      SeenIsNotBlank(s.backfill[v].seen);
      assert Reindexed(s.dirs[v], IndexOfSeen(s.backfill[v].seen)[..n]).files[INDEX_PATH] == IndexOfSeen(s.backfill[v].seen)[..n];
    }
  }

  lemma SeenIsNotBlank(seen: set<Path>)
    ensures |IndexOfSeen(seen)| > 0
  {
    IndexIsNotBlank(SortedCoords(seen));
  }

  /** What the backfill writes, and whenever, leaves a directory in place everything but the index, and
      that too unless the version was in hand when the directory was put there. */
  lemma BackfillKeepsInPlace(arch: Archives, s: State, s': State, u: Version, v: Version)
    requires InPlace(arch, s, v) && Touches(s, s', u)
    ensures InPlace(arch, s', v)
  {
    hide Extract, WithIndex, HandOk;
  }

  lemma BackfillKeepsTask(arch: Archives, s: State, s': State, u: Version, task: Task)
    requires TaskOk(arch, s, task) && Touches(s, s', u)
    ensures TaskOk(arch, s', task)
  {
    if task.Pulling? && task.pull.Renamed? { BackfillKeepsInPlace(arch, s, s', u, task.queue[0]); }
    hide Complete, Extraction, InPlace;
    assert s'.recorded == s.recorded && s'.staging == s.staging;
    hide Touches;
  }

  lemma BackfillKeepsInv(arch: Archives, s: State, step: EnvStep)
    requires Inv(arch, s) && EnvEnabled(s, step) && IsBackfill(step)
    ensures Inv(arch, EnvApply(s, step))
  {
    hide InPlace, TaskOk, EnvApply, EnvEnabled, HandOk;
    var s' := EnvApply(s, step);
    BackfillTouches(s, step);
    forall v | v in s.recorded ensures InPlace(arch, s', v) { BackfillKeepsInPlace(arch, s, s', step.v, v); }
    forall w | w in s.tasks ensures TaskOk(arch, s', s.tasks[w]) { BackfillKeepsTask(arch, s, s', step.v, s.tasks[w]); }
  }

  lemma EnvKeepsInv(arch: Archives, s: State, step: EnvStep)
    requires Inv(arch, s) && EnvEnabled(s, step)
    ensures Inv(arch, EnvApply(s, step))
  {
    hide Inv, EnvApply, EnvEnabled;
    if IsBackfill(step) { BackfillKeepsInv(arch, s, step); } else { RequestKeepsInv(arch, s, step); }
  }

  lemma BackfillHarmsIff(arch: Archives, v: Version, t: Tree, index: Bytes)
    requires CompleteButIndex(arch, v, t)
    ensures Complete(arch, v, Reindexed(t, index)) <==> index == EncodeIndex(IndexOf(Extraction(arch, v).value))
  {
    hide Extract, EncodeIndex, IndexOf;
    assert Reindexed(t, index).files[INDEX_PATH] == index;
  }

  lemma CrashKeepsInv(arch: Archives, s: State)
    requires Inv(arch, s)
    ensures Inv(arch, Crash(s))
  {
    hide Complete, CompleteButIndex, Extract, WithIndex;
  }

  lemma StartKeepsInv(arch: Archives, s: State, w: Wid, remoteCurrent: string)
    requires Inv(arch, s)
    ensures Inv(arch, StartTask(s, w, remoteCurrent))
  {
    hide Complete, CompleteButIndex, Extract, WithIndex;
  }

  /** Apart from the promise of the sync task itself, a step leaves every recorded directory and every
      answer. */
  ghost predicate Keeps(arch: Archives, s: State, s': State, w: Wid) {
    && s'.tasks.Keys <= {w} && (w in s'.tasks ==> TaskOk(arch, s', s'.tasks[w]))
    && s'.recorded == s.recorded && s'.fills == s.fills
    && (forall v | v in s.recorded :: if v in s.backfill then v in s'.backfill && s'.backfill[v] == s.backfill[v] else v !in s'.backfill)
    && s'.currentCache == s.currentCache && s'.aliasCache == s.aliasCache
    && Resolves(s, s'.current) && (forall a | a in s'.aliases :: s'.aliases[a] in s.recorded)
    && (forall v | v in s.recorded && v in s.dirs :: v in s'.dirs && s'.dirs[v] == s.dirs[v])
    && (forall v | v in s.recorded :: v in s'.straddled <==> v in s.straddled)
  }

  /** The one task moves on, and nothing recorded or promised is touched. */
  lemma MoveKeepsInv(arch: Archives, s: State, s': State, w: Wid)
    requires Inv(arch, s) && Exclusive(s) && w in s.tasks
    requires Keeps(arch, s, s', w)
    ensures Inv(arch, s')
  {
    hide Complete, CompleteButIndex, Extract, WithIndex;
  }

  /** Recording the version just renamed into place. */
  lemma RecordKeepsInv(arch: Archives, s: State, w: Wid)
    requires Inv(arch, s) && Exclusive(s) && w in s.tasks && Enabled(arch, s, s.tasks[w], Record)
    ensures Inv(arch, Apply(arch, s, w, s.tasks[w], Record))
  {
    hide Complete, CompleteButIndex, Extract, WithIndex;
    var s' := Apply(arch, s, w, s.tasks[w], Record);
    assert forall w' | w' in s'.tasks :: w' == w;
  }

  lemma TaskStepKeepsRest(arch: Archives, s: State, w: Wid, step: TaskStep)
    requires Inv(arch, s) && Exclusive(s) && w in s.tasks && Enabled(arch, s, s.tasks[w], step) && step != Record
    ensures Keeps(arch, s, Apply(arch, s, w, s.tasks[w], step), w)
  {
    hide Inv, Extract, WithIndex, IsPullOrder, Keeps, Apply, Enabled;
    if step.Rename? { RenameKeepsRest(arch, s, w); }
    else if step.ClearSome? || step.FinishClear? { ClearingKeepsRest(arch, s, w, step); }
    else if IsStageStep(step) { StageStepKeepsRest(arch, s, w, step); }
    else if IsPlanStep(step) { PlanStepKeepsRest(arch, s, w, step); }
    else { TableStepKeepsRest(arch, s, w, step); }
  }

  lemma TaskStepKeepsInv(arch: Archives, s: State, w: Wid, step: TaskStep)
    requires Inv(arch, s) && Exclusive(s) && w in s.tasks && Enabled(arch, s, s.tasks[w], step)
    ensures Inv(arch, Apply(arch, s, w, s.tasks[w], step))
  {
    hide Inv, Extract, WithIndex, IsPullOrder, Keeps, Apply, Enabled;
    if step == Record {
      RecordKeepsInv(arch, s, w);
    } else {
      TaskStepKeepsRest(arch, s, w, step);
      MoveKeepsInv(arch, s, Apply(arch, s, w, s.tasks[w], step), w);
    }
  }

  predicate IsStageStep(step: TaskStep) {
    step.Download? || step.ExtractSome? || step.FinishExtract? || step.WriteIndex? || step.StartClear?
  }

  /** Up to the clearing, a pull works in its staging directory only, and leaves the tree there as the
      next operation expects it. */
  lemma StageStepKeepsRest(arch: Archives, s: State, w: Wid, step: TaskStep)
    requires Inv(arch, s) && Exclusive(s) && w in s.tasks && Enabled(arch, s, s.tasks[w], step) && IsStageStep(step)
    ensures Keeps(arch, s, Apply(arch, s, w, s.tasks[w], step), w)
  {
    hide Extract, WithIndex, IsPullOrder, InPlace, RecordedComplete;
    assert TaskOk(arch, s, s.tasks[w]);
    hide TasksOk;
  }

  /** Clearing removes only the version being pulled, which is not recorded. */
  lemma ClearingKeepsRest(arch: Archives, s: State, w: Wid, step: TaskStep)
    requires Inv(arch, s) && Exclusive(s) && w in s.tasks && Enabled(arch, s, s.tasks[w], step)
    requires step.ClearSome? || step.FinishClear?
    ensures Keeps(arch, s, Apply(arch, s, w, s.tasks[w], step), w)
  {
    hide Complete, CompleteButIndex, Extract, WithIndex, IsPullOrder, InPlace, RecordedComplete;
    assert TaskOk(arch, s, s.tasks[w]);
    hide TasksOk;
  }

  /** The rename puts a complete directory in place; if the backfill has the version in hand at that
      moment, its index is no longer promised. */
  lemma RenameKeepsRest(arch: Archives, s: State, w: Wid)
    requires Inv(arch, s) && Exclusive(s) && w in s.tasks && Enabled(arch, s, s.tasks[w], Rename)
    ensures Keeps(arch, s, Apply(arch, s, w, s.tasks[w], Rename), w)
  {
    hide Extract, WithIndex, IsPullOrder, RecordedComplete, Complete, CompleteButIndex;
    assert TaskOk(arch, s, s.tasks[w]);
    hide TasksOk;
    CompleteHasItsIndex(arch, s.tasks[w].queue[0], s.staging[s.tasks[w].pull.sid]);
  }

  lemma CompleteHasItsIndex(arch: Archives, v: Version, t: Tree)
    requires Complete(arch, v, t)
    ensures CompleteButIndex(arch, v, t)
  {
    hide Extract;
  }

  predicate IsPlanStep(step: TaskStep) {
    step.ListVersions? || step.CheckLocal? || step.Plan? || step.CheckRecorded? || step.ListAliases?
  }

  lemma PlanStepKeepsRest(arch: Archives, s: State, w: Wid, step: TaskStep)
    requires Inv(arch, s) && Exclusive(s) && w in s.tasks && Enabled(arch, s, s.tasks[w], step) && IsPlanStep(step)
    ensures Keeps(arch, s, Apply(arch, s, w, s.tasks[w], step), w)
  {
    hide Complete, CompleteButIndex, Extract, WithIndex, IsPullOrder, InPlace, IsPart, Detached;
  }

  predicate IsTableStep(step: TaskStep) {
    step.CheckAlias? || step.SetAlias? || step.DeleteAlias? || step.SetCurrent? || step.Fail?
  }

  lemma TableStepKeepsRest(arch: Archives, s: State, w: Wid, step: TaskStep)
    requires Inv(arch, s) && Exclusive(s) && w in s.tasks && Enabled(arch, s, s.tasks[w], step) && IsTableStep(step)
    ensures Keeps(arch, s, Apply(arch, s, w, s.tasks[w], step), w)
  {
    hide Complete, CompleteButIndex, Extract, WithIndex, IsPullOrder, InPlace, IsPart, Detached;
  }
}
