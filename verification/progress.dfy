/** A reconciliation never gets stuck: from every reachable state that is in the middle of one, the
    reconciler and the workers it waits for can bring it to its end. */
module Progress {
  import opened Server
  import opened ServerRuns
  import opened Wrappers
  import F = ServerFiles
  import M = MirrorPull
  import S = Supervisor

  // ----- What is left to do -----

  /** Both loops run over what is there. */
  predicate Ready(s: S.State) {
    && (s.rec.Scanning? ==> s.rec.todo <= s.workers.Keys)
    && (s.rec.Starting? ==> s.rec.todo <= s.rec.desired.Keys)
  }

  function Stage(rec: S.Reconciler): nat {
    match rec
    case Listed(_) => 4
    case Scanning(_, _, _, _) => 3
    case Waiting(_, _, _) => 2
    case Starting(_, _, _) => 1
    case Idle => 0
  }

  function Left(rec: S.Reconciler): nat {
    match rec
    case Scanning(_, todo, _, _) => |todo|
    case Waiting(_, stopped, _) => |stopped|
    case Starting(_, restart, todo) => |restart| + |todo|
    case _ => 0
  }

  function Rank(phase: S.Phase): nat {
    match phase
    case Fresh => 3
    case InPass => 2
    case Selecting => 1
    case Exited => 0
  }

  ghost function Pick(some: set<nat>): nat
    requires some != {}
    ensures Pick(some) in some
  {
    var x :| x in some; x
  }

  lemma {:induction false} SomeUnused(used: set<nat>) returns (above: nat)
    ensures forall x | x in used :: x < above
  {
    if used == {} {
      above := 0;
    } else {
      var x :| x in used;
      above := SomeUnused(used - {x});
      assert used == (used - {x}) + {x};
      if above <= x { above := x + 1; }
    }
  }

  lemma UnusedExists(used: set<nat>)
    ensures exists x: nat :: x !in used
  {
    var above := SomeUnused(used);
    assert above !in used;
  }

  ghost function Unused(used: set<nat>): nat
    ensures Unused(used) !in used
  {
    UnusedExists(used);
    var x: nat :| x !in used; x
  }

  /** How far the worker that is waited for has to go. */
  ghost function Awaited(s: S.State): nat {
    if s.rec.Waiting? && s.rec.stopped != {} && Pick(s.rec.stopped) in s.routines
    then Rank(s.routines[Pick(s.rec.stopped)].phase) else 0
  }

  ghost function NextStep(s: S.State): S.Step
    requires S.StoppedApart(s) && !s.rec.Idle?
  {
    match s.rec
    case Listed(_) => S.LockScan
    case Scanning(_, todo, _, _) => if todo == {} then S.UnlockScan else S.ScanOne(Pick(todo))
    case Waiting(_, stopped, _) => if stopped == {} then S.LockStart else TowardsExit(s, Pick(stopped))
    case Starting(_, restart, todo) =>
      if restart.Keys != {} then S.Restart(Pick(restart.Keys), Unused(s.routines.Keys))
      else if todo != {} then S.StartMissing(Pick(todo), Unused(s.routines.Keys))
      else S.UnlockStart
  }

  function TowardsExit(s: S.State, w: S.Wid): S.Step
    requires w in s.routines
  {
    match s.routines[w].phase
    case Fresh => S.BeginFirst(w)
    case InPass => S.EndPass(w)
    case Selecting => S.Exit(w)
    case Exited => S.Join(w)
  }

  // ----- One step further -----

  lemma NextIsEnabled(s: S.State)
    requires S.Handles(s) && S.StoppedApart(s) && Ready(s) && !s.rec.Idle?
    ensures S.Enabled(s, NextStep(s))
  {
    if s.rec.Starting? && s.rec.restart.Keys == {} { assert s.rec.restart == map[]; }
  }

  predicate Nearer(s: S.State, s': S.State) {
    || Stage(s'.rec) < Stage(s.rec)
    || (Stage(s'.rec) == Stage(s.rec) && Left(s'.rec) < Left(s.rec))
  }

  lemma PhaseMoves(s: S.State, w: S.Wid, step: S.Step)
    requires S.Enabled(s, step) && (step == S.BeginFirst(w) || step == S.EndPass(w) || step == S.Exit(w))
    ensures var s' := S.Apply(s, step);
            s'.rec == s.rec && w in s'.routines && Rank(s'.routines[w].phase) < Rank(s.routines[w].phase)
  {
  }

  lemma JoinMoves(s: S.State, w: S.Wid)
    requires S.Enabled(s, S.Join(w))
    ensures var s' := S.Apply(s, S.Join(w)); Nearer(s, s') && s'.rec.Waiting? && s'.rec.desired == s.rec.desired
  {
  }

  lemma WorkerMoves(s: S.State)
    requires S.StoppedApart(s) && s.rec.Waiting? && s.rec.stopped != {} && S.Enabled(s, NextStep(s))
    ensures var s' := S.Apply(s, NextStep(s));
            && (Nearer(s, s') || (s'.rec == s.rec && Awaited(s') < Awaited(s)))
            && !s'.rec.Idle? && s'.rec.desired == s.rec.desired
  {
    hide S.Apply, S.Enabled, Nearer, Rank;
    var w := Pick(s.rec.stopped);
    if s.routines[w].phase.Exited? { JoinMoves(s, w); } else { PhaseMoves(s, w, NextStep(s)); }
  }

  lemma ScanMoves(s: S.State, id: S.RemoteId)
    requires S.Enabled(s, S.ScanOne(id))
    ensures var s' := S.Apply(s, S.ScanOne(id)); Nearer(s, s') && !s'.rec.Idle? && s'.rec.desired == s.rec.desired
  {
  }

  lemma RestartMoves(s: S.State, id: S.RemoteId, w: S.Wid)
    requires S.Enabled(s, S.Restart(id, w))
    ensures var s' := S.Apply(s, S.Restart(id, w)); Nearer(s, s') && !s'.rec.Idle? && s'.rec.desired == s.rec.desired
  {
    assert |s.rec.restart - {id}| < |s.rec.restart| by {
      assert (s.rec.restart - {id}).Keys == s.rec.restart.Keys - {id};
      assert |(s.rec.restart - {id}).Keys| == |s.rec.restart - {id}| && |s.rec.restart.Keys| == |s.rec.restart|;
    }
  }

  lemma MissingMoves(s: S.State, id: S.RemoteId, w: S.Wid)
    requires S.Enabled(s, S.StartMissing(id, w))
    ensures var s' := S.Apply(s, S.StartMissing(id, w)); Nearer(s, s') && !s'.rec.Idle? && s'.rec.desired == s.rec.desired
  {
  }

  predicate TurnsPage(step: S.Step) { step.LockScan? || step.UnlockScan? || step.LockStart? || step.UnlockStart? }

  lemma TurnMoves(s: S.State, step: S.Step)
    requires S.Enabled(s, step) && TurnsPage(step)
    ensures var s' := S.Apply(s, step);
            Nearer(s, s') && s'.workers == s.workers && (step.UnlockStart? <==> s'.rec.Idle?)
            && (!s'.rec.Idle? ==> s'.rec.desired == s.rec.desired)
  {
  }

  lemma ReconcilerMoves(s: S.State)
    requires S.StoppedApart(s) && S.Reconciled(s) && !s.rec.Idle? && S.Enabled(s, NextStep(s))
    requires !(s.rec.Waiting? && s.rec.stopped != {})
    ensures var s' := S.Apply(s, NextStep(s));
            && Nearer(s, s')
            && if s'.rec.Idle? then s'.workers.Keys == s.rec.desired.Keys else s'.rec.desired == s.rec.desired
  {
    hide S.Apply, Nearer, S.Reconciled, S.StoppedApart;
    var step := NextStep(s);
    if step.ScanOne? {
      ScanMoves(s, step.id);
    } else if step.Restart? {
      RestartMoves(s, step.id, step.w);
    } else if step.StartMissing? {
      MissingMoves(s, step.id, step.w);
    } else {
      TurnMoves(s, step);
      if s.rec.Starting? { AllStarted(s); }
    }
  }

  lemma AllStarted(s: S.State)
    requires S.Reconciled(s) && S.Enabled(s, S.UnlockStart)
    ensures s.workers.Keys == s.rec.desired.Keys
  {
  }

  lemma StepKeepsReady(s: S.State, step: S.Step)
    requires Ready(s) && S.Enabled(s, step)
    ensures Ready(S.Apply(s, step))
  {
  }

  // ----- To the end -----

  /** The map syncs of a pass come to an end, in failure if not otherwise, and then the pass does. */
  function Syncing(s: State, w: S.Wid): set<MapId> { set m | m in s.maps && w in s.maps[m].tasks }

  ghost function Unfinished(s: State): nat {
    if s.sup.rec.Waiting? && s.sup.rec.stopped != {} then |Syncing(s, Pick(s.sup.rec.stopped))| else 0
  }

  ghost function NextOf(s: State): Step
    requires S.StoppedApart(s.sup) && !s.sup.rec.Idle?
  {
    var step := NextStep(s.sup);
    if step.EndPass? && Syncing(s, step.w) != {} then Work(Pick(Syncing(s, step.w)), step.w, M.Fail(None)) else Sup(step)
  }

  lemma FailEnds(arch: M.Archives, s: M.State, w: M.Wid)
    requires w in s.tasks
    ensures M.Enabled(arch, s, s.tasks[w], M.Fail(None))
    ensures M.Apply(arch, s, w, s.tasks[w], M.Fail(None)).tasks == s.tasks - {w}
  {
  }

  lemma NextOfIsEnabled(world: World, s: State)
    requires Inv(world, s) && Ready(s.sup) && !s.sup.rec.Idle?
    ensures Enabled(world, s, NextOf(s))
  {
    hide NextStep, S.Enabled, M.Enabled, MapsOk, Owned, Ready;
    NextIsEnabled(s.sup);
    var step := NextStep(s.sup);
    if step.EndPass? && Syncing(s, step.w) == {} { assert forall m | m in s.maps :: m !in Syncing(s, step.w); }
    if step.EndPass? && Syncing(s, step.w) != {} {
      var m := Pick(Syncing(s, step.w));
      FailEnds(world.archives(m), s.maps[m], step.w);
    }
  }

  lemma AwaitedPasses(s: S.State)
    requires S.StoppedApart(s) && !s.rec.Idle? && NextStep(s).EndPass?
    ensures s.rec.Waiting? && s.rec.stopped != {} && NextStep(s).w == Pick(s.rec.stopped)
  {
  }

  lemma SyncEnds(world: World, s: State)
    requires S.StoppedApart(s.sup) && !s.sup.rec.Idle? && Enabled(world, s, NextOf(s)) && NextOf(s).Work?
    ensures var s' := Apply(world, s, NextOf(s)); s'.sup == s.sup && Unfinished(s') < Unfinished(s)
  {
    hide NextStep, S.Apply, S.Enabled, M.Apply, M.Enabled, S.StoppedApart;
    AwaitedPasses(s.sup);
    var s' := Apply(world, s, NextOf(s));
    var w, m := NextOf(s).w, NextOf(s).m;
    FailEnds(world.archives(m), s.maps[m], w);
    assert Syncing(s', w) == Syncing(s, w) - {m};
  }

  /** From every reachable state inside a reconciliation some continuation of the run ends it, whatever
      the workers and their syncs were doing, without a crash or a Stop, and the running workers
      are then those of the rows it read. */
  lemma {:induction false} ReconcileCanFinish(world: World, states: seq<State>, steps: seq<Step>)
    returns (states': seq<State>, steps': seq<Step>)
    requires Run(world, states, steps) && |states| == |steps| + 1 && !states[|steps|].sup.rec.Idle?
    ensures F.Continues(world, states, steps, states', steps') && |states'| == |steps'| + 1
    ensures states'[|steps'|].sup.rec.Idle?
    ensures states'[|steps'|].sup.workers.Keys == states[|steps|].sup.rec.desired.Keys
    ensures states'[|steps'|].sup.shutdown == states[|steps|].sup.shutdown
    ensures states'[|steps'|].sup.halted == states[|steps|].sup.halted
    ensures forall k | |steps| <= k < |steps'| :: !EndsWorkers(steps'[k])
    decreases Stage(states[|steps|].sup.rec), Left(states[|steps|].sup.rec), Awaited(states[|steps|].sup), Unfinished(states[|steps|])
  {
    hide Run, Inv, Enabled, Apply, Ready, NextOf, Awaited, Unfinished, Stage, Left, S.Reconciled, S.StoppedApart;
    var s := states[|steps|];
    RunKeepsInv(world, states, steps, |steps|);
    RunIsReady(world, states, steps, |steps|);
    InvParts(world, s);
    NextOfIsEnabled(world, s);
    var step, s1 := NextOf(s), Apply(world, s, NextOf(s));
    F.OneMore(world, states, steps, step);
    states', steps' := states + [s1], steps + [step];
    NextOfComesNearer(world, s);
    if !s1.sup.rec.Idle? {
      states', steps' := ReconcileCanFinish(world, states', steps');
    }
  }

  lemma InvParts(world: World, s: State)
    requires Inv(world, s)
    ensures S.Inv(s.sup) && S.Reconciled(s.sup) && S.StoppedApart(s.sup)
  {
  }

  lemma NextOfComesNearer(world: World, s: State)
    requires S.Reconciled(s.sup) && S.StoppedApart(s.sup) && !s.sup.rec.Idle? && Enabled(world, s, NextOf(s))
    ensures var s' := Apply(world, s, NextOf(s));
            && (if s'.sup.rec.Idle? then s'.sup.workers.Keys == s.sup.rec.desired.Keys
                else s'.sup.rec.desired == s.sup.rec.desired)
            && (|| Nearer(s.sup, s'.sup)
                || (s'.sup.rec == s.sup.rec
                    && (Awaited(s'.sup) < Awaited(s.sup) || (Awaited(s'.sup) == Awaited(s.sup) && Unfinished(s') < Unfinished(s)))))
    ensures !EndsWorkers(NextOf(s)) && SameContext(s.sup, Apply(world, s, NextOf(s)).sup)
  {
    hide S.Reconciled, S.StoppedApart, S.Apply, S.Enabled, NextStep, M.Apply, M.Enabled, Awaited, Unfinished, Nearer, Syncing;
    if NextOf(s).Work? {
      SyncEnds(world, s);
    } else {
      if s.sup.rec.Waiting? && s.sup.rec.stopped != {} { WorkerMoves(s.sup); } else { ReconcilerMoves(s.sup); }
    }
    if NextOf(s).Sup? { NextIsNoStop(s.sup); }
  }

  predicate SameContext(s: S.State, s': S.State) { s'.shutdown == s.shutdown && s'.halted == s.halted }

  lemma NextIsNoStop(s: S.State)
    requires S.StoppedApart(s) && !s.rec.Idle? && S.Enabled(s, NextStep(s))
    ensures !NextStep(s).Stop? && !NextStep(s).Leave? && SameContext(s, S.Apply(s, NextStep(s)))
  {
  }

  lemma {:induction false} RunIsReady(world: World, states: seq<State>, steps: seq<Step>, i: nat)
    requires Run(world, states, steps) && i < |states|
    ensures Ready(states[i].sup)
  {
    if i > 0 {
      hide S.Apply, S.Enabled, M.Apply, M.Enabled, Ready;
      RunIsReady(world, states, steps, i - 1);
      assert StepAt(world, states, steps, i - 1);
      if steps[i - 1].Sup? { StepKeepsReady(states[i - 1].sup, steps[i - 1].step); }
      if steps[i - 1].Crash? { FreshIsReady(states[i].sup); }
    }
  }

  lemma FreshIsReady(s: S.State)
    requires s.rec.Idle?
    ensures Ready(s)
  {
  }

  lemma LeaveStep(s: S.State)
    requires s.rec.Idle? && s.shutdown && !s.halted
    ensures S.Enabled(s, S.Leave) && S.Apply(s, S.Leave).halted && S.Apply(s, S.Leave).workers == map[]
  {
  }

  /** After shutdown Start can always still return, and leaves no worker in the map. */
  lemma StartCanReturn(world: World, states: seq<State>, steps: seq<Step>)
    returns (states': seq<State>, steps': seq<Step>)
    requires Run(world, states, steps) && |states| == |steps| + 1
    requires states[|steps|].sup.shutdown && !states[|steps|].sup.halted
    ensures F.Continues(world, states, steps, states', steps') && |states'| == |steps'| + 1
    ensures states'[|steps'|].sup.halted && states'[|steps'|].sup.workers == map[]
    ensures forall k | |steps| <= k < |steps'| :: !steps'[k].Crash?
  {
    hide Run, S.Enabled, S.Apply;
    states', steps' := states, steps;
    if !states[|steps|].sup.rec.Idle? { states', steps' := ReconcileCanFinish(world, states, steps); }
    LeaveStep(states'[|steps'|].sup);
    F.OneMore(world, states', steps', Sup(S.Leave));
    states', steps' := states' + [Apply(world, states'[|steps'|], Sup(S.Leave))], steps' + [Sup(S.Leave)];
  }

  // ----- A trigger can be served -----

  predicate BeginsPass(step: Step, w: S.Wid) {
    step == Sup(S.BeginFirst(w)) || step == Sup(S.TickPass(w)) || step == Sup(S.TakeTrigger(w))
  }

  lemma PassBegins(s: S.State, step: S.Step, w: S.Wid)
    requires w in s.routines && !s.routines[w].cancelled
    requires match s.routines[w].phase
             case Fresh => step == S.BeginFirst(w)
             case Selecting => step == if s.routines[w].slot then S.TakeTrigger(w) else S.TickPass(w)
             case _ => false
    ensures S.Enabled(s, step)
    ensures var s' := S.Apply(s, step);
            && S.AtPhase(s', w, S.InPass) && !s'.routines[w].cancelled && s'.routines[w].remote == s.routines[w].remote
            && (s.routines[w].phase.Selecting? ==> !s'.routines[w].slot)
            && s.routines[w].remote !in s'.unserved && s'.workers == s.workers
  {
  }

  lemma PassEnds(s: S.State, w: S.Wid)
    requires S.AtPhase(s, w, S.InPass)
    ensures S.Enabled(s, S.EndPass(w))
    ensures var s' := S.Apply(s, S.EndPass(w));
            && s'.routines == s.routines[w := s.routines[w].(phase := S.Selecting)] && s'.workers == s.workers
            && s'.shutdown == s.shutdown
  {
  }

  /** w is the worker of remote id, and its context is not cancelled. */
  predicate Works(s: S.State, id: S.RemoteId, w: S.Wid) {
    id in s.workers && s.workers[id].wid == w && w in s.routines && s.routines[w].remote == id && !s.routines[w].cancelled
  }

  /** The last step of the longer run begins a pass of w, with nothing left unanswered. */
  ghost predicate PassBegun(world: World, states: seq<State>, steps: seq<Step>, states': seq<State>, steps': seq<Step>, id: S.RemoteId, w: S.Wid) {
    && F.Continues(world, states, steps, states', steps') && |states'| == |steps'| + 1
    && |steps'| > |steps| && BeginsPass(steps'[|steps'| - 1], w)
    && Works(states'[|steps'|].sup, id, w) && S.AtPhase(states'[|steps'|].sup, w, S.InPass)
    && id !in states'[|steps'|].sup.unserved
    && forall k | |steps| <= k < |steps'| :: !EndsWorkers(steps'[k])
  }

  ghost function WorkLeft(s: State, w: S.Wid): nat
    requires w in s.sup.routines
  {
    if s.sup.routines[w].phase.InPass? then 1 + |Syncing(s, w)| else 0
  }

  /** What the worker does next: it ends its pass, one sync after the other, or begins one. */
  ghost function NextOfWorker(s: State, w: S.Wid): Step
    requires w in s.sup.routines
  {
    match s.sup.routines[w].phase
    case Fresh => Sup(S.BeginFirst(w))
    case InPass => if Syncing(s, w) == {} then Sup(S.EndPass(w)) else Work(Pick(Syncing(s, w)), w, M.Fail(None))
    case _ => if s.sup.routines[w].slot then Sup(S.TakeTrigger(w)) else Sup(S.TickPass(w))
  }

  lemma WorkerGoesOn(world: World, s: State, id: S.RemoteId, w: S.Wid)
    requires Works(s.sup, id, w) && S.AtPhase(s.sup, w, S.InPass)
    ensures Enabled(world, s, NextOfWorker(s, w))
    ensures var s' := Apply(world, s, NextOfWorker(s, w));
            Works(s'.sup, id, w) && !s'.sup.routines[w].phase.Exited? && WorkLeft(s', w) < WorkLeft(s, w)
    ensures !EndsWorkers(NextOfWorker(s, w))
  {
    hide S.Apply, S.Enabled, M.Apply, M.Enabled;
    if Syncing(s, w) == {} {
      assert forall m | m in s.maps :: m !in Syncing(s, w);
      PassEnds(s.sup, w);
    } else {
      var m := Pick(Syncing(s, w));
      FailEnds(world.archives(m), s.maps[m], w);
      assert Syncing(Apply(world, s, NextOfWorker(s, w)), w) == Syncing(s, w) - {m};
    }
  }

  lemma WorkerBegins(world: World, s: State, id: S.RemoteId, w: S.Wid)
    requires Works(s.sup, id, w) && !s.sup.routines[w].phase.Exited? && !s.sup.routines[w].phase.InPass?
    ensures Enabled(world, s, NextOfWorker(s, w)) && BeginsPass(NextOfWorker(s, w), w)
    ensures var s' := Apply(world, s, NextOfWorker(s, w));
            Works(s'.sup, id, w) && S.AtPhase(s'.sup, w, S.InPass) && id !in s'.sup.unserved
    ensures !EndsWorkers(NextOfWorker(s, w))
  {
    hide S.Apply, S.Enabled;
    PassBegins(s.sup, NextOfWorker(s, w).step, w);
  }

  lemma {:induction false} PassCanBegin(world: World, states: seq<State>, steps: seq<Step>, id: S.RemoteId, w: S.Wid)
    returns (states': seq<State>, steps': seq<Step>)
    requires Run(world, states, steps) && |states| == |steps| + 1
    requires Works(states[|steps|].sup, id, w) && !states[|steps|].sup.routines[w].phase.Exited?
    ensures PassBegun(world, states, steps, states', steps', id, w)
    decreases WorkLeft(states[|steps|], w)
  {
    hide Run, Enabled, Apply, NextOfWorker, WorkLeft, BeginsPass, EndsWorkers;
    var s := states[|steps|];
    var step := NextOfWorker(s, w);
    if S.AtPhase(s.sup, w, S.InPass) { WorkerGoesOn(world, s, id, w); } else { WorkerBegins(world, s, id, w); }
    F.OneMore(world, states, steps, step);
    states', steps' := states + [Apply(world, s, step)], steps + [step];
    if S.AtPhase(s.sup, w, S.InPass) {
      states', steps' := PassCanBegin(world, states', steps', id, w);
    }
  }

  lemma WorkerInMapWorks(s: S.State, id: S.RemoteId)
    requires S.Inv(s) && !s.shutdown && id in s.workers
    ensures Works(s, id, s.workers[id].wid) && !s.routines[s.workers[id].wid].phase.Exited?
  {
  }

  lemma UnservedHasWorker(s: S.State, id: S.RemoteId)
    requires S.Inv(s) && !s.shutdown && id in s.unserved && id !in s.workers
    ensures !s.rec.Idle? && id in s.rec.desired
  {
  }

  /** Before shutdown an accepted trigger can always still be served: from every reachable state some
      continuation without a crash or a Stop ends with the beginning of a pass of the remote's worker. */
  lemma TriggerCanBeServed(world: World, states: seq<State>, steps: seq<Step>, id: S.RemoteId)
    returns (states': seq<State>, steps': seq<Step>, w: S.Wid)
    requires Run(world, states, steps) && |states| == |steps| + 1
    requires !states[|steps|].sup.shutdown && id in states[|steps|].sup.unserved
    ensures PassBegun(world, states, steps, states', steps', id, w)
  {
    hide Run, Inv, S.Inv, Works;
    var s := states[|steps|].sup;
    RunKeepsInv(world, states, steps, |steps|);
    InvParts(world, states[|steps|]);
    states', steps' := states, steps;
    if id !in s.workers {
      UnservedHasWorker(s, id);
      states', steps' := ReconcileCanFinish(world, states, steps);
      RunKeepsInv(world, states', steps', |steps'|);
      InvParts(world, states'[|steps'|]);
    }
    w := states'[|steps'|].sup.workers[id].wid;
    WorkerInMapWorks(states'[|steps'|].sup, id);
    states', steps' := PassCanBegin(world, states', steps', id, w);
  }
}
