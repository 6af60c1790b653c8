/** Nothing is left behind in the staging area: but for crashes and removals that fail, every staging
    directory is that of a pull or an upload still under way. */
module Staging {
  import opened Server
  import opened ServerRuns
  import opened Wrappers
  import M = MirrorPull
  import S = Supervisor
  import U = Upload

  // ----- Pulls -----

  ghost predicate InUse(s: M.State) {
    forall sid | sid in s.staging :: exists w :: w in s.tasks && sid in M.StagingOf(s.tasks[w])
  }

  function StagingAfter(s: M.State, w: M.Wid): set<M.Sid> {
    if w in s.tasks then M.StagingOf(s.tasks[w]) else {}
  }

  /** w went on: it took up or gave up its own directory, and the other tasks are as they were. */
  ghost predicate OnlyOwn(s: M.State, s': M.State, w: M.Wid) {
    && w in s.tasks
    && (forall v | v != w :: v in s.tasks <==> v in s'.tasks)
    && (forall v | v != w && v in s.tasks :: s'.tasks[v] == s.tasks[v])
    && s'.staging.Keys <= (s.staging.Keys - M.StagingOf(s.tasks[w])) + StagingAfter(s', w)
  }

  predicate LeavesLitter(step: M.TaskStep) { step.Fail? && step.leftover.Some? }

  lemma DownloadIsOnlyOwn(arch: M.Archives, s: M.State, w: M.Wid, sid: M.Sid)
    requires w in s.tasks && M.Enabled(arch, s, s.tasks[w], M.Download(sid))
    ensures OnlyOwn(s, M.Apply(arch, s, w, s.tasks[w], M.Download(sid)), w)
  {
    hide M.Extraction;
  }

  predicate Stages(step: M.TaskStep) { step.ExtractSome? || step.FinishExtract? || step.WriteIndex? }

  /** A stage of a pull works in the directory the task has. */
  ghost predicate WorksInOwn(s: M.State, s': M.State, w: M.Wid) {
    && w in s.tasks && w in s'.tasks && M.StagingOf(s'.tasks[w]) == M.StagingOf(s.tasks[w])
    && s'.staging.Keys <= s.staging.Keys + M.StagingOf(s.tasks[w])
    && s'.tasks == s.tasks[w := s'.tasks[w]]
  }

  lemma ExtractsInOwn(arch: M.Archives, s: M.State, w: M.Wid, step: M.TaskStep)
    requires w in s.tasks && M.Enabled(arch, s, s.tasks[w], step) && step.ExtractSome?
    ensures WorksInOwn(s, M.Apply(arch, s, w, s.tasks[w], step), w)
  {
    hide M.Extraction;
    assert s.tasks[w := s.tasks[w]] == s.tasks;
  }

  lemma FinishesInOwn(arch: M.Archives, s: M.State, w: M.Wid, step: M.TaskStep)
    requires w in s.tasks && M.Enabled(arch, s, s.tasks[w], step) && step.FinishExtract?
    ensures WorksInOwn(s, M.Apply(arch, s, w, s.tasks[w], step), w)
  {
    hide M.Extraction;
  }

  lemma IndexesInOwn(arch: M.Archives, s: M.State, w: M.Wid, step: M.TaskStep)
    requires w in s.tasks && M.Enabled(arch, s, s.tasks[w], step) && step.WriteIndex?
    ensures WorksInOwn(s, M.Apply(arch, s, w, s.tasks[w], step), w)
  {
    hide M.Extraction;
  }

  lemma StageIsOnlyOwn(arch: M.Archives, s: M.State, w: M.Wid, step: M.TaskStep)
    requires w in s.tasks && M.Enabled(arch, s, s.tasks[w], step) && Stages(step)
    ensures OnlyOwn(s, M.Apply(arch, s, w, s.tasks[w], step), w)
  {
    hide M.Apply, M.Enabled, M.StagingOf;
    if step.ExtractSome? {
      ExtractsInOwn(arch, s, w, step);
    } else if step.FinishExtract? {
      FinishesInOwn(arch, s, w, step);
    } else {
      IndexesInOwn(arch, s, w, step);
    }
  }

  lemma RenameIsOnlyOwn(arch: M.Archives, s: M.State, w: M.Wid)
    requires w in s.tasks && M.Enabled(arch, s, s.tasks[w], M.Rename)
    ensures OnlyOwn(s, M.Apply(arch, s, w, s.tasks[w], M.Rename), w)
  {
    hide M.Extraction, M.Detached;
  }

  lemma FailIsOnlyOwn(arch: M.Archives, s: M.State, w: M.Wid)
    requires w in s.tasks && M.Enabled(arch, s, s.tasks[w], M.Fail(None))
    ensures OnlyOwn(s, M.Apply(arch, s, w, s.tasks[w], M.Fail(None)), w)
  {
    hide M.StagingOf;
  }

  predicate Aliases(step: M.TaskStep) { step.CheckAlias? || step.SetAlias? || step.DeleteAlias? || step.SetCurrent? }

  lemma AliasStepIsOnlyOwn(arch: M.Archives, s: M.State, w: M.Wid, step: M.TaskStep)
    requires w in s.tasks && M.Enabled(arch, s, s.tasks[w], step) && Aliases(step)
    ensures OnlyOwn(s, M.Apply(arch, s, w, s.tasks[w], step), w)
  {
    hide M.Extraction;
  }

  lemma OtherStepIsOnlyOwn(arch: M.Archives, s: M.State, w: M.Wid, step: M.TaskStep)
    requires w in s.tasks && M.Enabled(arch, s, s.tasks[w], step)
    requires !step.Download? && !Stages(step) && !step.Rename? && !step.Fail? && !Aliases(step)
    ensures OnlyOwn(s, M.Apply(arch, s, w, s.tasks[w], step), w)
  {
    hide M.Extraction, M.IsPullOrder;
  }

  lemma OnlyOwnKeepsInUse(s: M.State, s': M.State, w: M.Wid)
    requires InUse(s) && OnlyOwn(s, s', w)
    ensures InUse(s')
  {
    hide M.StagingOf;
    forall sid | sid in s'.staging ensures exists v :: v in s'.tasks && sid in M.StagingOf(s'.tasks[v]) {
      if sid !in StagingAfter(s', w) {
        var v :| v in s.tasks && sid in M.StagingOf(s.tasks[v]);
        assert v in s'.tasks && s'.tasks[v] == s.tasks[v];
      }
    }
  }

  lemma TaskStepKeepsInUse(arch: M.Archives, s: M.State, w: M.Wid, step: M.TaskStep)
    requires InUse(s) && w in s.tasks && M.Enabled(arch, s, s.tasks[w], step) && !LeavesLitter(step)
    ensures InUse(M.Apply(arch, s, w, s.tasks[w], step))
  {
    hide M.Apply, M.Enabled, InUse, OnlyOwn;
    if step.Download? {
      DownloadIsOnlyOwn(arch, s, w, step.sid);
    } else if Stages(step) {
      StageIsOnlyOwn(arch, s, w, step);
    } else if step.Rename? {
      RenameIsOnlyOwn(arch, s, w);
    } else if step.Fail? {
      FailIsOnlyOwn(arch, s, w);
    } else if Aliases(step) {
      AliasStepIsOnlyOwn(arch, s, w, step);
    } else {
      OtherStepIsOnlyOwn(arch, s, w, step);
    }
    OnlyOwnKeepsInUse(s, M.Apply(arch, s, w, s.tasks[w], step), w);
  }

  lemma EnvKeepsInUse(s: M.State, step: M.EnvStep)
    requires InUse(s) && M.EnvEnabled(s, step)
    ensures InUse(M.EnvApply(s, step))
  {
    hide M.IndexOfSeen;
    assert M.EnvApply(s, step).tasks == s.tasks && M.EnvApply(s, step).staging == s.staging;
  }

  lemma BeginKeepsInUse(s: M.State, w: M.Wid, current: string)
    requires InUse(s) && w !in s.tasks
    ensures InUse(M.StartTask(s, w, current))
  {
    hide M.StagingOf;
    var s' := M.StartTask(s, w, current);
    forall sid | sid in s'.staging ensures exists v :: v in s'.tasks && sid in M.StagingOf(s'.tasks[v]) {
      var v :| v in s.tasks && sid in M.StagingOf(s.tasks[v]);
      assert v in s'.tasks && s'.tasks[v] == s.tasks[v];
    }
  }

  ghost predicate AllInUse(s: State) { forall m | m in s.maps :: InUse(s.maps[m]) }

  /** The process goes on, and no removal fails. */
  predicate Tidies(step: Step) { !step.Crash? && !(step.Work? && LeavesLitter(step.task)) }

  lemma StepKeepsAllInUse(world: World, s: State, step: Step)
    requires AllInUse(s) && Enabled(world, s, step) && Tidies(step)
    ensures AllInUse(Apply(world, s, step))
  {
    hide InUse, S.Apply, S.Enabled, M.Apply, M.Enabled, M.EnvApply, M.EnvEnabled, M.StartTask;
    match step
    case Begin(m, w, current) => BeginKeepsInUse(s.maps[m], w, current);
    case Work(m, w, task) => TaskStepKeepsInUse(world.archives(m), s.maps[m], w, task);
    case Env(m, env) => EnvKeepsInUse(s.maps[m], env);
    case _ =>
  }

  /** In every run that began with an empty staging area, and in which nothing crashed and no removal
      failed, each staging directory of a mirrored map is that of a pull under way. */
  lemma {:induction false} NoStagingIsLeft(world: World, states: seq<State>, steps: seq<Step>, i: nat)
    requires Run(world, states, steps) && i < |states| && AllInUse(states[0])
    requires forall k | 0 <= k < i :: Tidies(steps[k])
    ensures AllInUse(states[i])
  {
    if i > 0 {
      hide AllInUse, Enabled, Apply, Init, Tidies;
      NoStagingIsLeft(world, states, steps, i - 1);
      assert StepAt(world, states, steps, i - 1);
      StepKeepsAllInUse(world, states[i - 1], steps[i - 1]);
    }
  }

  // ----- Uploads -----

  ghost predicate UploadsInUse(s: U.State) {
    forall sid | sid in s.staging :: exists u :: u in s.uploads && s.uploads[u].sid == sid
  }

  lemma UploadStepKeepsInUse(arch: U.Uploaded, s: U.State, step: U.Step)
    requires U.StagingOk(arch, s) && UploadsInUse(s) && U.Enabled(arch, s, step) && !step.Crash? && !(step.Fail? && step.leftover.Some?)
    ensures UploadsInUse(U.Apply(arch, s, step))
  {
    hide U.ExtractionOf, U.IsHighest, U.IsUploadOf;
    var s' := U.Apply(arch, s, step);
    forall sid | sid in s'.staging ensures exists u :: u in s'.uploads && s'.uploads[u].sid == sid {
      if sid in s.staging {
        var u :| u in s.uploads && s.uploads[u].sid == sid;
        assert u in s'.uploads && s'.uploads[u].sid == sid;
      } else {
        assert step.Begin? && step.u in s'.uploads && s'.uploads[step.u].sid == sid;
      }
    }
  }

  lemma StagingPart(arch: U.Uploaded, s: U.State)
    requires U.Inv(arch, s)
    ensures U.StagingOk(arch, s)
  {
  }

  /** So does each staging directory of a local map belong to an upload under way. */
  lemma {:induction false} NoUploadIsLeft(arch: U.Uploaded, states: seq<U.State>, steps: seq<U.Step>, i: nat)
    requires U.Run(arch, states, steps) && i < |states| && UploadsInUse(states[0])
    requires forall k | 0 <= k < i :: !steps[k].Crash? && !(steps[k].Fail? && steps[k].leftover.Some?)
    ensures UploadsInUse(states[i])
  {
    if i > 0 {
      hide UploadsInUse, U.Enabled, U.Apply, U.Init, U.Inv, U.StagingOk;
      NoUploadIsLeft(arch, states, steps, i - 1);
      assert U.StepAt(arch, states, steps, i - 1);
      U.RunKeepsInv(arch, states, steps, i - 1);
      StagingPart(arch, states[i - 1]);
      UploadStepKeepsInUse(arch, states[i - 1], steps[i - 1]);
    }
  }
}
