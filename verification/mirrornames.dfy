/** The version names of a mirrored map: numerals throughout, so that each names a directory of its own. */
module MirrorNames {
  import opened Archive
  import opened MirrorPull
  import opened Numerals
  import opened Paths
  import opened TileIndex
  import opened Wrappers

  ghost predicate AllNumerals(names: set<Version>) { forall v | v in names :: IsNumeric(v) }

  ghost predicate TaskNames(task: Task) {
    match task
    case Checking(_, snap, _) => AllNumerals(snap.Keys)
    case Pulling(_, snap, queue, _) => AllNumerals(snap.Keys) && forall v | v in queue :: IsNumeric(v)
    case _ => true
  }

  ghost predicate NamesOk(s: State) {
    && AllNumerals(s.listed.Keys) && AllNumerals(s.recorded.Keys) && AllNumerals(s.dirs.Keys)
    && forall w | w in s.tasks :: TaskNames(s.tasks[w])
  }

  lemma RestOfNames(queue: seq<Version>)
    requires queue != [] && forall v | v in queue :: IsNumeric(v)
    ensures IsNumeric(queue[0]) && forall v | v in queue[1..] :: IsNumeric(v)
  {
    assert queue[0] in queue && forall v | v in queue[1..] :: v in queue;
  }

  lemma TaskKeepsTaskNames(arch: Archives, s: State, w: Wid, step: TaskStep)
    requires w in s.tasks && Enabled(arch, s, s.tasks[w], step) && AllNumerals(s.listed.Keys) && TaskNames(s.tasks[w])
    ensures var s' := Apply(arch, s, w, s.tasks[w], step);
            && (w in s'.tasks ==> TaskNames(s'.tasks[w]))
            && (forall x | x in s'.tasks && x != w :: x in s.tasks && s'.tasks[x] == s.tasks[x])
  {
    hide Extract, WithIndex, IsNumeric, IsPart, Detached;
    if (step.CheckRecorded? || step.Record?) { RestOfNames(s.tasks[w].queue); }
  }

  /** A step puts up no row and no directory but of a version it was given. */
  lemma TaskAddsItsHead(arch: Archives, s: State, w: Wid, step: TaskStep)
    requires w in s.tasks && Enabled(arch, s, s.tasks[w], step)
    ensures var s' := Apply(arch, s, w, s.tasks[w], step);
            && s'.listed == s.listed
            && (if PullingAt(s.tasks[w])
                then s'.recorded.Keys <= s.recorded.Keys + {s.tasks[w].queue[0]} && s'.dirs.Keys <= s.dirs.Keys + {s.tasks[w].queue[0]}
                else s'.recorded == s.recorded && s'.dirs == s.dirs)
  {
    hide Extract, WithIndex, IsPullOrder, IsPart, Detached, Abandon;
    AbandonKeepsRows(s, w, s.tasks[w], if step.Fail? then step.leftover else None);
  }

  lemma AbandonKeepsRows(s: State, w: Wid, task: Task, leftover: Option<Tree>)
    ensures var s' := Abandon(s, w, task, leftover);
            s'.listed == s.listed && s'.recorded == s.recorded && s'.dirs == s.dirs
  {
  }

  lemma TaskKeepsRowNames(arch: Archives, s: State, w: Wid, step: TaskStep)
    requires w in s.tasks && Enabled(arch, s, s.tasks[w], step) && TaskNames(s.tasks[w])
    requires AllNumerals(s.listed.Keys) && AllNumerals(s.recorded.Keys) && AllNumerals(s.dirs.Keys)
    ensures var s' := Apply(arch, s, w, s.tasks[w], step);
            AllNumerals(s'.listed.Keys) && AllNumerals(s'.recorded.Keys) && AllNumerals(s'.dirs.Keys)
  {
    hide Apply, Enabled, IsNumeric;
    TaskAddsItsHead(arch, s, w, step);
    if PullingAt(s.tasks[w]) { RestOfNames(s.tasks[w].queue); }
  }

  lemma TaskKeepsNames(arch: Archives, s: State, w: Wid, step: TaskStep)
    requires NamesOk(s) && w in s.tasks && Enabled(arch, s, s.tasks[w], step)
    ensures NamesOk(Apply(arch, s, w, s.tasks[w], step))
  {
    hide Apply, Enabled, TaskNames, AllNumerals;
    TaskKeepsTaskNames(arch, s, w, step);
    TaskKeepsRowNames(arch, s, w, step);
  }

  lemma EnvKeepsNames(s: State, step: EnvStep)
    requires NamesOk(s) && EnvEnabled(s, step)
    ensures NamesOk(EnvApply(s, step))
  {
    hide IsNumeric, TaskNames, IndexOfSeen, TilesAt;
    var s' := EnvApply(s, step);
    assert s'.tasks == s.tasks && s'.recorded == s.recorded && s'.dirs.Keys == s.dirs.Keys;
    assert s'.listed.Keys <= s.listed.Keys + if step.Publish? then {step.v} else {};
  }

  lemma StartKeepsNames(s: State, w: Wid, remoteCurrent: string)
    requires NamesOk(s)
    ensures NamesOk(StartTask(s, w, remoteCurrent))
  {
    hide AllNumerals;
  }

  lemma CrashKeepsNames(s: State)
    requires NamesOk(s)
    ensures NamesOk(Crash(s))
  {
    hide AllNumerals;
  }

  /** filepath.Join of a directory and a numeral is that numeral's own directory right below it. */
  lemma DirectoryOfNumeral(base: Path, v: Version)
    requires IsNumeric(v)
    ensures Clean(base, Split(v)) == base + [v]
  {
    PlainSegment(v);
    assert WellFormed([v]) && Join([v]) == v;
    SplitOfJoin([v]);
    CleanKeepsPlain(base, [v]);
  }
}
