/** The sequential pass and the transition system are about the same thing: whatever a call of
    pullVersion does, with or without error, and what the pass does to aliases and current version, is
    what some operations of one task in a row do. */
module MirrorLink {
  import A = Archive
  import opened MirrorPaths
  import opened MirrorPull
  import opened TileIndex
  import opened Wrappers
  import D = SyncDiff
  import P = SyncPass
  import Y = SyncMap

  function Times(recorded: map<Version, D.VersionRecord>): map<Version, Time> {
    map v | v in recorded :: recorded[v].createdAt
  }

  lemma OneMoreTime(recorded: map<Version, D.VersionRecord>, v: D.VersionRecord)
    ensures Times(recorded[v.version := v]) == Times(recorded)[v.version := v.createdAt]
  {
  }

  /** Task w has come to v, over these rows and directories. */
  predicate Reaches(s: State, w: Wid, v: D.VersionRecord, recorded: map<Version, D.VersionRecord>, dirs: map<Version, A.Tree>) {
    && w in s.tasks && PullingAt(s.tasks[w]) && s.tasks[w].pull == AtCheck && s.tasks[w].queue[0] == v.version
    && v.version in s.tasks[w].snap && s.tasks[w].snap[v.version] == v.createdAt
    && s.recorded == Times(recorded) && s.dirs == dirs
  }

  /** From s the task's operations lead to s'. */
  ghost predicate Leads(arch: Archives, s: State, w: Wid, s': State) {
    exists states, steps :: Path(arch, w, states, steps) && states[0] == s && states[|steps|] == s'
  }

  lemma Stays(arch: Archives, s: State, w: Wid)
    ensures Leads(arch, s, w, s)
  {
    assert Path(arch, w, [s], []);
  }

  lemma OneMoreStep(arch: Archives, s: State, w: Wid, s': State, step: TaskStep, s'': State)
    requires Leads(arch, s, w, s') && Takes(arch, s', w, step, s'')
    ensures Leads(arch, s, w, s'')
  {
    hide Takes;
    var states, steps :| Path(arch, w, states, steps) && states[0] == s && states[|steps|] == s';
    OneStep(arch, w, s', step, s'');
    Join(arch, w, states, steps, [s', s''], [step]);
    var all, moves := states + [s', s''][1..], steps + [step];
    assert all[0] == s && all[|moves|] == s'';
  }

  lemma FailStep(arch: Archives, s: State, w: Wid)
    requires w in s.tasks
    ensures Takes(arch, s, w, Fail(None), Abandon(s, w, s.tasks[w], None))
  {
    hide Abandon, A.Extract;
  }

  /** The task gives up where it is. */
  lemma GivesUp(arch: Archives, s: State, w: Wid, s': State) returns (t: State)
    requires Leads(arch, s, w, s') && w in s'.tasks
    ensures Leads(arch, s, w, t) && t.recorded == s'.recorded && t.dirs == s'.dirs && t.tasks == s'.tasks - {w}
  {
    hide Leads, Takes;
    FailStep(arch, s', w);
    t := Abandon(s', w, s'.tasks[w], None);
    OneMoreStep(arch, s, w, s', Fail(None), t);
  }

  lemma SkipStep(arch: Archives, s: State, w: Wid, v: D.VersionRecord, recorded: map<Version, D.VersionRecord>, dirs: map<Version, A.Tree>)
    requires Reaches(s, w, v, recorded, dirs) && v.version in recorded
    ensures Takes(arch, s, w, CheckRecorded, With(s, w, s.tasks[w].(queue := s.tasks[w].queue[1..])))
  {
    hide A.Extract, WithIndex, IsPullOrder;
  }

  lemma ClearSteps(arch: Archives, s: State, w: Wid, v: Version, sid: Sid, t: A.Tree, remains: A.Tree)
    requires AboutToPull(s, w, v)
    ensures v in s.dirs && IsPart(remains, s.dirs[v]) ==> Takes(arch, Holding(s, w, Clearing(sid), sid, t), w, ClearSome(remains),
                                  Holding(s, w, Clearing(sid), sid, t).(dirs := s.dirs[v := remains]))
    ensures Takes(arch, Holding(s, w, Clearing(sid), sid, t), w, FinishClear,
                  Holding(s, w, Cleared(sid), sid, t).(dirs := s.dirs - {v}))
  {
    hide A.Extract, WithIndex, IsPullOrder;
  }

  lemma HeldState(s: State, w: Wid, pull: Pull, sid: Sid, t: A.Tree)
    requires w in s.tasks && s.tasks[w].Pulling?
    ensures var h := Holding(s, w, pull, sid, t);
            h.recorded == s.recorded && h.dirs == s.dirs && w in h.tasks && h.tasks - {w} == s.tasks - {w}
  {
  }

  /** A move into place that is cut short. */
  lemma HalfMovedIsReached(arch: Archives, s: State, w: Wid, v: Version, sid: Sid, dirs': map<Version, A.Tree>) returns (s': State)
    requires AboutToPull(s, w, v) && sid !in s.staging && Extraction(arch, v).Ok? && Y.HalfMoved(v, s.dirs, dirs')
    ensures Leads(arch, s, w, s') && s'.recorded == s.recorded && s'.dirs == dirs' && w in s'.tasks && s'.tasks - {w} == s.tasks - {w}
  {
    hide A.Extract, WithIndex, Takes, Path, AboutToPull;
    var t := WithIndex(Extraction(arch, v).value);
    assert w in s.tasks && s.tasks[w].Pulling? by { PullsNow(s, w, v); }
    var states, steps := StagePath(arch, s, w, v, sid, Extraction(arch, v).value);
    var staged := Holding(s, w, Clearing(sid), sid, t);
    assert Leads(arch, s, w, staged);
    hide Leads, Holding;
    HeldState(s, w, Clearing(sid), sid, t);
    HeldState(s, w, Cleared(sid), sid, t);
    if dirs' == s.dirs {
      return staged;
    } else if dirs' == s.dirs - {v} {
      ClearSteps(arch, s, w, v, sid, t, t);
      s' := Holding(s, w, Cleared(sid), sid, t).(dirs := dirs');
      OneMoreStep(arch, s, w, staged, FinishClear, s');
    } else {
      ClearSteps(arch, s, w, v, sid, t, dirs'[v]);
      s' := staged.(dirs := dirs');
      OneMoreStep(arch, s, w, staged, ClearSome(dirs'[v]), s');
    }
  }

  lemma PullsNow(s: State, w: Wid, v: Version)
    requires AboutToPull(s, w, v)
    ensures w in s.tasks && s.tasks[w].Pulling? && s.tasks[w].queue != [] && s.tasks[w].queue[0] == v
  {
  }

  /** A move into place that is not recorded any more. */
  lemma MovedIsReached(arch: Archives, s: State, w: Wid, v: Version, sid: Sid, dirs': map<Version, A.Tree>) returns (s': State)
    requires AboutToPull(s, w, v) && sid !in s.staging && Y.Moved(arch, v, s.dirs, dirs')
    ensures Leads(arch, s, w, s') && s'.recorded == s.recorded && s'.dirs == dirs' && w in s'.tasks && s'.tasks - {w} == s.tasks - {w}
  {
    hide A.Extract, WithIndex, Takes, Path, AboutToPull;
    PullsNow(s, w, v);
    var states, steps := StagePath(arch, s, w, v, sid, Extraction(arch, v).value);
    var staged := Holding(s, w, Clearing(sid), sid, dirs'[v]);
    var states', steps' := PlacePath(arch, staged, w, v, sid);
    Join(arch, w, states, steps, states', steps');
    s' := Placed(staged, w, v, sid);
    assert (states + states'[1..])[0] == s && (states + states'[1..])[|steps + steps'|] == s';
  }

  /** Every outcome of PullVersion is reached by the task's own operations: the same rows, the same
      directories, and the task goes on to the next version or ends as the call succeeded or failed. */
  lemma PullVersionIsReached(arch: Archives, s: State, w: Wid, sid: Sid, v: D.VersionRecord,
                             recorded: map<Version, D.VersionRecord>, dirs: map<Version, A.Tree>, ok: bool,
                             recorded': map<Version, D.VersionRecord>, dirs': map<Version, A.Tree>) returns (s': State)
    requires Reaches(s, w, v, recorded, dirs) && sid !in s.staging
    requires Y.PullOutcome(arch, v, recorded, dirs, ok, recorded', dirs')
    ensures Leads(arch, s, w, s') && s'.recorded == Times(recorded') && s'.dirs == dirs'
    ensures s'.tasks == if ok then s.tasks[w := s.tasks[w].(queue := s.tasks[w].queue[1..])] else s.tasks - {w}
  {
    hide A.Extract, WithIndex, Takes, Path, Leads, Abandon;
    Stays(arch, s, w);
    if !ok {
      s' := s;
      if dirs' != dirs {
        if Y.Moved(arch, v.version, dirs, dirs') {
          s' := MovedIsReached(arch, s, w, v.version, sid, dirs');
        } else {
          s' := HalfMovedIsReached(arch, s, w, v.version, sid, dirs');
        }
      }
      var t := GivesUp(arch, s, w, s');
      s' := t;
    } else if v.version in recorded {
      SkipStep(arch, s, w, v, recorded, dirs);
      s' := With(s, w, s.tasks[w].(queue := s.tasks[w].queue[1..]));
      OneMoreStep(arch, s, w, s, CheckRecorded, s');
    } else {
      OneMoreTime(recorded, v);
      s' := PulledIsReached(arch, s, w, v.version, sid);
    }
  }

  lemma PulledIsReached(arch: Archives, s: State, w: Wid, v: Version, sid: Sid) returns (s': State)
    requires AboutToPull(s, w, v) && sid !in s.staging && Extraction(arch, v).Ok?
    ensures Leads(arch, s, w, s') && s' == Pulled(s, w, v, WithIndex(Extraction(arch, v).value))
  {
    hide A.Extract, WithIndex, Path;
    var states, steps := PullPath(arch, s, w, v, sid, Extraction(arch, v).value);
    s' := states[|steps|];
  }

  // ----- Aliases and the current version -----

  function Pairs(s: seq<D.AliasRecord>): seq<(string, Version)> {
    seq(|s|, i requires 0 <= i < |s| => (s[i].alias, s[i].version))
  }

  function Elements(s: seq<string>): set<string> { set n | n in s }

  function Setting(s: State, w: Wid, current: string, aliases: map<string, Version>, toSet: seq<D.AliasRecord>, toDelete: seq<string>): State {
    With(s, w, Aliasing(current, Pairs(toSet), toDelete, false)).(aliases := aliases)
  }

  lemma PairsOf(toSet: seq<D.AliasRecord>)
    requires toSet != []
    ensures Pairs(toSet) != [] && Pairs(toSet)[0] == (toSet[0].alias, toSet[0].version) && Pairs(toSet)[1..] == Pairs(toSet[1..])
  {
  }

  lemma CheckAliasStep(arch: Archives, s: State, w: Wid, current: string, aliases: map<string, Version>, toSet: seq<D.AliasRecord>, toDelete: seq<string>)
    requires toSet != []
    ensures Takes(arch, Setting(s, w, current, aliases, toSet, toDelete), w, CheckAlias,
                  if toSet[0].version in s.recorded
                  then With(Setting(s, w, current, aliases, toSet, toDelete), w, Aliasing(current, Pairs(toSet), toDelete, true))
                  else Setting(s, w, current, aliases, toSet[1..], toDelete))
  {
    hide A.Extract, WithIndex, IsPullOrder, IsPart, Detached, Abandon, Pairs;
    PairsOf(toSet);
  }

  lemma SetAliasStep(arch: Archives, s: State, w: Wid, current: string, aliases: map<string, Version>, toSet: seq<D.AliasRecord>, toDelete: seq<string>)
    requires toSet != [] && toSet[0].version in s.recorded
    ensures Takes(arch, With(Setting(s, w, current, aliases, toSet, toDelete), w, Aliasing(current, Pairs(toSet), toDelete, true)), w, SetAlias,
                  Setting(s, w, current, aliases[toSet[0].alias := toSet[0].version], toSet[1..], toDelete))
  {
    hide A.Extract, WithIndex, IsPullOrder, IsPart, Detached, Abandon, Pairs;
    PairsOf(toSet);
  }

  /** One turn of the loop over the aliases to set. */
  lemma OneAlias(arch: Archives, s: State, w: Wid, current: string, aliases: map<string, Version>, toSet: seq<D.AliasRecord>, toDelete: seq<string>)
    requires toSet != []
    ensures var r := toSet[0];
            var next := if r.version in s.recorded then aliases[r.alias := r.version] else aliases;
            Leads(arch, Setting(s, w, current, aliases, toSet, toDelete), w, Setting(s, w, current, next, toSet[1..], toDelete))
  {
    hide Takes, Leads, Pairs;
    var before, r := Setting(s, w, current, aliases, toSet, toDelete), toSet[0];
    Stays(arch, before, w);
    CheckAliasStep(arch, s, w, current, aliases, toSet, toDelete);
    if r.version in s.recorded {
      var mid := With(before, w, Aliasing(current, Pairs(toSet), toDelete, true));
      SetAliasStep(arch, s, w, current, aliases, toSet, toDelete);
      OneMoreStep(arch, before, w, before, CheckAlias, mid);
      OneMoreStep(arch, before, w, mid, SetAlias, Setting(s, w, current, aliases[r.alias := r.version], toSet[1..], toDelete));
    } else {
      OneMoreStep(arch, before, w, before, CheckAlias, Setting(s, w, current, aliases, toSet[1..], toDelete));
    }
  }

  lemma LeadsOn(arch: Archives, s: State, w: Wid, s': State, s'': State)
    requires Leads(arch, s, w, s') && Leads(arch, s', w, s'')
    ensures Leads(arch, s, w, s'')
  {
    hide Takes;
    var p, q :| Path(arch, w, p, q) && p[0] == s && p[|q|] == s';
    var p', q' :| Path(arch, w, p', q') && p'[0] == s' && p'[|q'|] == s'';
    Join(arch, w, p, q, p', q');
    assert (p + p'[1..])[0] == s && (p + p'[1..])[|q + q'|] == s'';
  }

  lemma {:induction false} AliasesAreSet(arch: Archives, s: State, w: Wid, current: string, toSet: seq<D.AliasRecord>, toDelete: seq<string>, i: nat)
    requires i <= |toSet|
    ensures Leads(arch, Setting(s, w, current, s.aliases, toSet, toDelete), w,
                  Setting(s, w, current, P.SetAll(s.aliases, toSet[..i], s.recorded.Keys), toSet[i..], toDelete))
  {
    hide Leads;
    if i == 0 {
      assert toSet[0..] == toSet && toSet[..0] == [];
      Stays(arch, Setting(s, w, current, s.aliases, toSet, toDelete), w);
    } else {
      AliasesAreSet(arch, s, w, current, toSet, toDelete, i - 1);
      OneAlias(arch, s, w, current, P.SetAll(s.aliases, toSet[..i - 1], s.recorded.Keys), toSet[i - 1..], toDelete);
      assert toSet[..i][..i - 1] == toSet[..i - 1] && toSet[i - 1..][1..] == toSet[i..] && toSet[i - 1..][0] == toSet[i - 1];
      LeadsOn(arch, Setting(s, w, current, s.aliases, toSet, toDelete), w,
              Setting(s, w, current, P.SetAll(s.aliases, toSet[..i - 1], s.recorded.Keys), toSet[i - 1..], toDelete),
              Setting(s, w, current, P.SetAll(s.aliases, toSet[..i], s.recorded.Keys), toSet[i..], toDelete));
    }
  }

  lemma OneDeletion(arch: Archives, s: State, w: Wid, current: string, aliases: map<string, Version>, toDelete: seq<string>)
    requires toDelete != []
    ensures Leads(arch, Setting(s, w, current, aliases, [], toDelete), w,
                  Setting(s, w, current, aliases - {toDelete[0]}, [], toDelete[1..]))
  {
    hide A.Extract, WithIndex, IsPullOrder, Path;
    var before, after := Setting(s, w, current, aliases, [], toDelete), Setting(s, w, current, aliases - {toDelete[0]}, [], toDelete[1..]);
    assert Takes(arch, before, w, DeleteAlias, after);
    hide Takes, Leads;
    Stays(arch, before, w);
    OneMoreStep(arch, before, w, before, DeleteAlias, after);
  }

  lemma {:induction false} AliasesAreDeleted(arch: Archives, s: State, w: Wid, current: string, aliases: map<string, Version>, toDelete: seq<string>, i: nat)
    requires i <= |toDelete|
    ensures Leads(arch, Setting(s, w, current, aliases, [], toDelete), w,
                  Setting(s, w, current, aliases - Elements(toDelete[..i]), [], toDelete[i..]))
  {
    hide Leads;
    if i == 0 {
      assert toDelete[0..] == toDelete && aliases - Elements(toDelete[..0]) == aliases;
      Stays(arch, Setting(s, w, current, aliases, [], toDelete), w);
    } else {
      AliasesAreDeleted(arch, s, w, current, aliases, toDelete, i - 1);
      var left := aliases - Elements(toDelete[..i - 1]);
      OneDeletion(arch, s, w, current, left, toDelete[i - 1..]);
      assert toDelete[..i] == toDelete[..i - 1] + [toDelete[i - 1]];
      assert toDelete[i - 1..][1..] == toDelete[i..] && toDelete[i - 1..][0] == toDelete[i - 1];
      assert left - {toDelete[i - 1]} == aliases - Elements(toDelete[..i]);
      LeadsOn(arch, Setting(s, w, current, aliases, [], toDelete), w, Setting(s, w, current, left, [], toDelete[i - 1..]),
              Setting(s, w, current, aliases - Elements(toDelete[..i]), [], toDelete[i..]));
    }
  }

  lemma ListAliasesStep(arch: Archives, s: State, w: Wid, snap: map<Version, Time>, current: string, toSet: seq<D.AliasRecord>, toDelete: seq<string>)
    requires w in s.tasks && s.tasks[w] == Pulling(current, snap, [], AtCheck)
    ensures Takes(arch, s, w, ListAliases(Pairs(toSet), toDelete), Setting(s, w, current, s.aliases, toSet, toDelete))
  {
    hide A.Extract, WithIndex, IsPullOrder, IsPart, Detached, Abandon, Pairs;
  }

  function Advanced(s: State, w: Wid, current: string, aliases: map<string, Version>): State {
    s.(aliases := aliases, tasks := s.tasks - {w}, current := if current != "" && current in s.recorded then current else s.current)
  }

  lemma SetCurrentStep(arch: Archives, s: State, w: Wid, current: string, aliases: map<string, Version>)
    ensures Takes(arch, Setting(s, w, current, aliases, [], []), w, SetCurrent, Advanced(s, w, current, aliases))
  {
    hide A.Extract, WithIndex, IsPullOrder, IsPart, Detached, Abandon;
    assert Setting(s, w, current, aliases, [], []).tasks - {w} == s.tasks - {w};
  }

  /** What the sequential pass does to aliases and current version is what the task's operations lead to,
      whatever lists the diff gave. */
  lemma AliasPassIsReached(arch: Archives, s: State, w: Wid, snap: map<Version, Time>, current: string, toSet: seq<D.AliasRecord>, toDelete: seq<string>)
    returns (s': State)
    requires w in s.tasks && s.tasks[w] == Pulling(current, snap, [], AtCheck)
    ensures Leads(arch, s, w, s')
    ensures s' == s.(aliases := P.SetAll(s.aliases, toSet, s.recorded.Keys) - Elements(toDelete), tasks := s.tasks - {w},
                     current := if current != "" && current in s.recorded then current else s.current)
  {
    hide Takes, Leads, Setting, P.SetAll, Elements, Pairs;
    var start := Setting(s, w, current, s.aliases, toSet, toDelete);
    var set1 := P.SetAll(s.aliases, toSet, s.recorded.Keys);
    var set2 := set1 - Elements(toDelete);
    ListAliasesStep(arch, s, w, snap, current, toSet, toDelete);
    AliasesAreSet(arch, s, w, current, toSet, toDelete, |toSet|);
    assert toSet[..|toSet|] == toSet && toSet[|toSet|..] == [];
    AliasesAreDeleted(arch, s, w, current, set1, toDelete, |toDelete|);
    assert toDelete[..|toDelete|] == toDelete && toDelete[|toDelete|..] == [];
    var last := Setting(s, w, current, set2, [], []);
    SetCurrentStep(arch, s, w, current, set2);
    s' := Advanced(s, w, current, set2);
    Stays(arch, s, w);
    OneMoreStep(arch, s, w, s, ListAliases(Pairs(toSet), toDelete), start);
    LeadsOn(arch, s, w, start, Setting(s, w, current, set1, [], toDelete));
    LeadsOn(arch, s, w, Setting(s, w, current, set1, [], toDelete), last);
    OneMoreStep(arch, s, w, last, SetCurrent, s');
  }
}
