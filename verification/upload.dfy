/** Uploads to one locally owned map, as a transition system: any number of concurrent uploads, edits of
    the map's current version, failures and crashes anywhere. Here the number is recorded first and
    the directory renamed second, so directories are contained in the recorded versions. */
module Upload {
  import opened Archive
  import opened Numerals
  import opened TileIndex
  import opened Wrappers

  type Uid = nat
  type Sid = nat

  /** Each upload's own archive. */
  type Uploaded = Uid -> Archive

  /** Locked and Reading are inside IncrementMapVersion's transaction, holding the map row's lock. */
  datatype Phase = Extracting | Extracted | Indexed | Locked | Reading(last: nat) | Committed(number: nat)

  datatype Upload = Upload(sid: Sid, phase: Phase)

  /** IncrementMapVersion gave number to upload. */
  datatype Grant = Grant(upload: Uid, number: nat)

  /** indexing holds the versions whose index file the backfill has open. */
  datatype State = State(
    versions: set<string>, current: string, lock: Option<Uid>,
    dirs: map<string, Tree>, staging: map<Sid, Tree>,
    uploads: map<Uid, Upload>, seen: set<Uid>, grants: seq<Grant>,
    indexing: set<string>)

  datatype Step =
    | Begin(u: Uid, sid: Sid)
    | ExtractSome(u: Uid, t: Tree)
    | FinishExtract(u: Uid)
    | WriteIndex(u: Uid)
    | Lock(u: Uid)
    | ReadMax(u: Uid, last: nat)
    | Commit(u: Uid)
    | Rename(u: Uid)
    | Fail(u: Uid, leftover: Option<Tree>)
    | PutCurrent(version: string)
    | BackfillOpen(version: string)
    | BackfillWrite(version: string, written: nat)
    | BackfillDone(version: string)
    | Crash

  /** The cast version::int, which fails on anything but a 32-bit numeral. */
  function PgInt(v: string): Option<int> {
    var n := Atoi(v);
    if n.Some? && -MAX_INT32 - 1 <= n.value <= MAX_INT32 then n else None
  }

  /** COALESCE(MAX(version::int), 0) yields n: every cast succeeds and n is the largest, or 0 of none. */
  ghost predicate IsHighest(versions: set<string>, n: int) {
    && (forall v | v in versions :: PgInt(v).Some? && PgInt(v).value <= n)
    && (if versions == {} then n == 0 else exists v :: v in versions && PgInt(v) == Some(n))
  }

  function ExtractionOf(arch: Uploaded, u: Uid): Result<Tree, FsError> {
    Extract(arch(u).format, [], arch(u).entries)
  }

  /** t is u's extracted archive together with its index. */
  ghost predicate IsUploadOf(arch: Uploaded, u: Uid, t: Tree) {
    ExtractionOf(arch, u).Ok? && t == WithIndex(ExtractionOf(arch, u).value)
  }

  predicate At(s: State, u: Uid, phase: Phase) { u in s.uploads && s.uploads[u].phase == phase }

  ghost predicate Enabled(arch: Uploaded, s: State, step: Step) {
    match step
    case Begin(u, sid) => u !in s.seen && sid !in s.staging
    case ExtractSome(u, t) => At(s, u, Extracting)
    case FinishExtract(u) => At(s, u, Extracting) && ExtractionOf(arch, u).Ok?
    case WriteIndex(u) => At(s, u, Extracted) && s.uploads[u].sid in s.staging
    case Lock(u) => At(s, u, Indexed) && s.lock == None
    case ReadMax(u, last) => At(s, u, Locked) && IsHighest(s.versions, last)
    case Commit(u) => u in s.uploads && s.uploads[u].phase.Reading?
    case Rename(u) =>
      && u in s.uploads && s.uploads[u].phase.Committed? && s.uploads[u].sid in s.staging
      && Itoa(s.uploads[u].phase.number) !in s.dirs
    case Fail(u, leftover) => u in s.uploads
    case PutCurrent(_) => s.lock == None
    // the index backfill after a start; nothing else touches a version's directory meanwhile
    case BackfillOpen(v) => v in s.dirs && INDEX_PATH !in s.dirs[v].files
    case BackfillWrite(v, n) => v in s.indexing && v in s.dirs && n <= |EncodeIndex(IndexOf(s.dirs[v]))|
    case BackfillDone(v) => true
    case Crash => true
  }

  function MoveTo(s: State, u: Uid, phase: Phase): State
    requires u in s.uploads
  {
    s.(uploads := s.uploads[u := s.uploads[u].(phase := phase)])
  }

  function Restage(s: State, u: Uid, phase: Phase, t: Tree): State
    requires u in s.uploads
  {
    MoveTo(s, u, phase).(staging := s.staging[s.uploads[u].sid := t])
  }

  /** The transaction writes the version row and the current version and releases the lock. */
  function CommitNumber(s: State, u: Uid, n: nat): State
    requires u in s.uploads
  {
    MoveTo(s, u, Committed(n))
    .(versions := s.versions + {Itoa(n)}, current := Itoa(n), lock := None, grants := s.grants + [Grant(u, n)])
  }

  function RenameStaged(s: State, u: Uid, n: nat): State
    requires u in s.uploads && s.uploads[u].sid in s.staging
  {
    s.(dirs := s.dirs[Itoa(n) := s.staging[s.uploads[u].sid]], staging := s.staging - {s.uploads[u].sid},
       uploads := s.uploads - {u})
  }

  /** The handler returns with an error: an open transaction rolls back, and the staging directory is
      removed as far as that succeeds. */
  function GiveUp(s: State, u: Uid, leftover: Option<Tree>): State
    requires u in s.uploads
  {
    s.(uploads := s.uploads - {u}, lock := if s.lock == Some(u) then None else s.lock,
       staging := if leftover.Some? then s.staging[s.uploads[u].sid := leftover.value]
                  else s.staging - {s.uploads[u].sid})
  }

  /** The backfill has n bytes of v's index written; opening the file empties it. */
  ghost function WroteIndex(s: State, v: string, n: nat, indexing: set<string>): State
    requires v in s.dirs && n <= |EncodeIndex(IndexOf(s.dirs[v]))|
  {
    s.(dirs := s.dirs[v := Reindexed(s.dirs[v], EncodeIndex(IndexOf(s.dirs[v]))[..n])], indexing := indexing)
  }

  ghost function Apply(arch: Uploaded, s: State, step: Step): State
    requires Enabled(arch, s, step)
  {
    match step
    case Begin(u, sid) =>
      s.(uploads := s.uploads[u := Upload(sid, Extracting)], seen := s.seen + {u},
         staging := s.staging[sid := EMPTY_TREE])
    case ExtractSome(u, t) => Restage(s, u, Extracting, t)
    case FinishExtract(u) => Restage(s, u, Extracted, ExtractionOf(arch, u).value)
    case WriteIndex(u) => Restage(s, u, Indexed, WithIndex(s.staging[s.uploads[u].sid]))
    case Lock(u) => MoveTo(s, u, Locked).(lock := Some(u))
    case ReadMax(u, last) => MoveTo(s, u, Reading(last))
    case Commit(u) => CommitNumber(s, u, s.uploads[u].phase.last + 1)
    case Rename(u) => RenameStaged(s, u, s.uploads[u].phase.number)
    case Fail(u, leftover) => GiveUp(s, u, leftover)
    case PutCurrent(v) => s.(current := v)
    case BackfillOpen(v) => WroteIndex(s, v, 0, s.indexing + {v})
    case BackfillWrite(v, n) => WroteIndex(s, v, n, s.indexing)
    case BackfillDone(v) => s.(indexing := s.indexing - {v})
    case Crash => s.(uploads := map[], lock := None, indexing := {})
  }

  // ----- The invariant -----

  /** Versions are the numerals of positive numbers. */
  ghost predicate Numbered(versions: set<string>) {
    forall v | v in versions :: exists n: nat :: n >= 1 && v == Itoa(n)
  }

  predicate InTransaction(phase: Phase) { phase.Locked? || phase.Reading? }

  /** The lock is held by the one upload inside the transaction, and what it read is still so. */
  ghost predicate LockOk(s: State) {
    && (s.lock.Some? ==> s.lock.value in s.uploads && InTransaction(s.uploads[s.lock.value].phase))
    && (forall u | u in s.uploads && InTransaction(s.uploads[u].phase) :: s.lock == Some(u))
    && (forall u | u in s.uploads && s.uploads[u].phase.Reading? :: IsHighest(s.versions, s.uploads[u].phase.last))
  }

  /** Each upload has a staging directory of its own, holding what its phase says. */
  ghost predicate StagingOk(arch: Uploaded, s: State) {
    && (forall u, w | u in s.uploads && w in s.uploads && s.uploads[u].sid == s.uploads[w].sid :: u == w)
    && (forall u | u in s.uploads ::
          && u in s.seen && s.uploads[u].sid in s.staging
          && (s.uploads[u].phase.Extracted? ==> ExtractionOf(arch, u) == Ok(s.staging[s.uploads[u].sid]))
          && (!s.uploads[u].phase.Extracting? && !s.uploads[u].phase.Extracted? ==>
                IsUploadOf(arch, u, s.staging[s.uploads[u].sid])))
  }

  /** Numbers are given out in increasing order, one to an upload. */
  ghost predicate GrantsOk(s: State) {
    && (forall i, j | 0 <= i < j < |s.grants| :: s.grants[i].number < s.grants[j].number && s.grants[i].upload != s.grants[j].upload)
    && (forall g | g in s.grants :: Itoa(g.number) in s.versions && g.upload in s.seen)
    && (forall u | u in s.uploads && s.uploads[u].phase.Committed? :: Grant(u, s.uploads[u].phase.number) in s.grants)
    && (forall u, g | u in s.uploads && !s.uploads[u].phase.Committed? && g in s.grants :: g.upload != u)
  }

  /** Directories belong to recorded versions; a granted number's is its upload's, and is not there
      before the rename. */
  ghost predicate DirsOk(arch: Uploaded, s: State) {
    && s.dirs.Keys <= s.versions
    && s.indexing <= s.dirs.Keys
    && (forall g | g in s.grants && Itoa(g.number) in s.dirs ::
          IsUploadOf(arch, g.upload, s.dirs[Itoa(g.number)]) && Itoa(g.number) !in s.indexing)
    && (forall u | u in s.uploads && s.uploads[u].phase.Committed? :: Itoa(s.uploads[u].phase.number) !in s.dirs)
  }

  ghost predicate Inv(arch: Uploaded, s: State) {
    Numbered(s.versions) && LockOk(s) && StagingOk(arch, s) && GrantsOk(s) && DirsOk(arch, s)
  }

  /** An existing map, with whatever was uploaded to it before, and no upload under way. */
  ghost predicate Init(s: State) {
    && Numbered(s.versions) && s.dirs.Keys <= s.versions
    && s.lock == None && s.uploads == map[] && s.seen == {} && s.grants == [] && s.indexing == {}
  }

  lemma NumeralValue(n: nat)
    ensures PgInt(Itoa(n)) == if n <= MAX_INT32 then Some(n) else None
  {
    AtoiOfItoa(n);
  }

  /** The next number is greater than that of every recorded version. */
  lemma NextIsGreater(versions: set<string>, last: nat, n: nat)
    requires IsHighest(versions, last) && Itoa(n) in versions
    ensures n <= last
  {
    NumeralValue(n);
  }

  lemma CommitKeepsInv(arch: Uploaded, s: State, u: Uid)
    requires Inv(arch, s) && u in s.uploads && s.uploads[u].phase.Reading?
    ensures Inv(arch, CommitNumber(s, u, s.uploads[u].phase.last + 1))
  {
    hide IsUploadOf, ExtractionOf, WithIndex, IsHighest;
    var last := s.uploads[u].phase.last;
    forall n: nat | Itoa(n) in s.versions ensures n <= last {
      NextIsGreater(s.versions, last, n);
    }
    assert Itoa(last + 1) !in s.versions;
    hide PgInt, Itoa;
    CommitKeepsPhases(arch, s, u);
    CommitKeepsGrants(arch, s, u);
    CommitKeepsDirs(arch, s, u);
  }

  lemma CommitKeepsPhases(arch: Uploaded, s: State, u: Uid)
    requires Inv(arch, s) && u in s.uploads && s.uploads[u].phase.Reading?
    ensures var s' := CommitNumber(s, u, s.uploads[u].phase.last + 1);
            Numbered(s'.versions) && LockOk(s') && StagingOk(arch, s')
  {
    hide IsUploadOf, ExtractionOf, WithIndex, IsHighest, Itoa, DirsOk, GrantsOk;
  }

  lemma CommitKeepsGrants(arch: Uploaded, s: State, u: Uid)
    requires Inv(arch, s) && u in s.uploads && s.uploads[u].phase.Reading?
    requires forall n: nat | Itoa(n) in s.versions :: n <= s.uploads[u].phase.last
    ensures GrantsOk(CommitNumber(s, u, s.uploads[u].phase.last + 1))
  {
    hide IsUploadOf, ExtractionOf, WithIndex, IsHighest, Itoa, DirsOk, Numbered, LockOk;
    assert u in s.seen;
    hide StagingOk;
    var n, grants := s.uploads[u].phase.last + 1, s.grants + [Grant(u, s.uploads[u].phase.last + 1)];
    forall i, j | 0 <= i < j < |grants|
      ensures grants[i].number < grants[j].number && grants[i].upload != grants[j].upload
    {
      assert s.grants[i] in s.grants;
    }
    assert forall g :: g in grants <==> g in s.grants || g == Grant(u, n);
  }

  lemma CommitKeepsDirs(arch: Uploaded, s: State, u: Uid)
    requires Inv(arch, s) && u in s.uploads && s.uploads[u].phase.Reading?
    requires Itoa(s.uploads[u].phase.last + 1) !in s.versions
    ensures DirsOk(arch, CommitNumber(s, u, s.uploads[u].phase.last + 1))
  {
    hide IsUploadOf, ExtractionOf, WithIndex, IsHighest, Itoa, Numbered, StagingOk, LockOk;
  }

  /** An upload that comes to an end, leaving the staging directories of the others alone. */
  lemma EndKeepsPhases(arch: Uploaded, s: State, s': State, u: Uid)
    requires Inv(arch, s) && u in s.uploads
    requires s'.uploads == s.uploads - {u} && s'.seen == s.seen && s'.versions == s.versions && s'.grants == s.grants
    requires s'.lock == if s.lock == Some(u) then None else s.lock
    requires forall sid | sid in s.staging && sid != s.uploads[u].sid :: sid in s'.staging && s'.staging[sid] == s.staging[sid]
    ensures LockOk(s') && StagingOk(arch, s')
  {
    hide IsUploadOf, ExtractionOf, WithIndex, IsHighest, Itoa, Numbered, DirsOk, GrantsOk;
  }

  lemma EndKeepsGrants(s: State, s': State, u: Uid)
    requires GrantsOk(s) && u in s.uploads
    requires s'.uploads == s.uploads - {u} && s'.seen == s.seen && s'.versions == s.versions && s'.grants == s.grants
    ensures GrantsOk(s')
  {
    hide Itoa;
  }

  lemma RenameKeepsDirs(arch: Uploaded, s: State, u: Uid, n: nat)
    requires GrantsOk(s) && DirsOk(arch, s) && At(s, u, Committed(n))
    requires s.uploads[u].sid in s.staging && IsUploadOf(arch, u, s.staging[s.uploads[u].sid])
    ensures DirsOk(arch, RenameStaged(s, u, n))
  {
    hide IsUploadOf, ExtractionOf, WithIndex, Itoa;
    assert Grant(u, n) in s.grants;
    forall g | g in s.grants && Itoa(g.number) == Itoa(n) ensures g == Grant(u, n) {
      ItoaInjective(g.number, n);
    }
    assert forall w | w in s.uploads && w != u && s.uploads[w].phase.Committed? :: Grant(w, s.uploads[w].phase.number) in s.grants;
  }

  lemma RenameKeepsInv(arch: Uploaded, s: State, u: Uid)
    requires Inv(arch, s) && u in s.uploads && s.uploads[u].phase.Committed?
    ensures s.uploads[u].sid in s.staging && Inv(arch, RenameStaged(s, u, s.uploads[u].phase.number))
  {
    assert s.uploads[u].sid in s.staging && IsUploadOf(arch, u, s.staging[s.uploads[u].sid]) && s.lock != Some(u);
    hide IsUploadOf, ExtractionOf, WithIndex, IsHighest, Itoa, Numbered, GrantsOk, DirsOk, LockOk, StagingOk;
    var n := s.uploads[u].phase.number;
    RenameKeepsDirs(arch, s, u, n);
    EndKeepsPhases(arch, s, RenameStaged(s, u, n), u);
    EndKeepsGrants(s, RenameStaged(s, u, n), u);
  }

  lemma GiveUpKeepsInv(arch: Uploaded, s: State, u: Uid, leftover: Option<Tree>)
    requires Inv(arch, s) && u in s.uploads
    ensures Inv(arch, GiveUp(s, u, leftover))
  {
    hide IsUploadOf, ExtractionOf, WithIndex, IsHighest, Itoa, Numbered, LockOk, StagingOk, GrantsOk;
    EndKeepsPhases(arch, s, GiveUp(s, u, leftover), u);
    EndKeepsGrants(s, GiveUp(s, u, leftover), u);
  }

  /** An upload that has no number moves on without getting one. */
  lemma MoveKeepsDirs(arch: Uploaded, s: State, s': State, u: Uid)
    requires GrantsOk(s) && DirsOk(arch, s) && u in s.uploads && !s.uploads[u].phase.Committed?
    requires u in s'.uploads && !s'.uploads[u].phase.Committed? && s'.uploads == s.uploads[u := s'.uploads[u]]
    requires s'.versions == s.versions && s'.dirs == s.dirs && s'.indexing == s.indexing && s'.grants == s.grants && s'.seen == s.seen
    ensures GrantsOk(s') && DirsOk(arch, s')
  {
    hide IsUploadOf, Itoa, WithIndex, ExtractionOf;
  }

  lemma RestageKeepsStaging(arch: Uploaded, s: State, u: Uid, phase: Phase, t: Tree)
    requires StagingOk(arch, s) && u in s.uploads
    requires phase == Extracting || (phase == Extracted && ExtractionOf(arch, u) == Ok(t))
             || (phase == Indexed && IsUploadOf(arch, u, t))
    ensures StagingOk(arch, Restage(s, u, phase, t))
  {
    hide IsUploadOf, ExtractionOf, WithIndex;
  }

  lemma RestageKeepsInv(arch: Uploaded, s: State, u: Uid, phase: Phase, t: Tree)
    requires Inv(arch, s) && u in s.uploads && (s.uploads[u].phase.Extracting? || s.uploads[u].phase.Extracted?)
    requires phase == Extracting || (phase == Extracted && ExtractionOf(arch, u) == Ok(t))
             || (phase == Indexed && IsUploadOf(arch, u, t))
    ensures Inv(arch, Restage(s, u, phase, t))
  {
    hide IsUploadOf, ExtractionOf, WithIndex, IsHighest, Itoa, Numbered, StagingOk, GrantsOk, DirsOk;
    RestageKeepsStaging(arch, s, u, phase, t);
    MoveKeepsDirs(arch, s, Restage(s, u, phase, t), u);
  }

  lemma StageStepKeepsInv(arch: Uploaded, s: State, step: Step)
    requires Inv(arch, s) && Enabled(arch, s, step)
    requires step.ExtractSome? || step.FinishExtract? || step.WriteIndex?
    ensures Inv(arch, Apply(arch, s, step))
  {
    hide Extract, WithIndex, IsHighest, Itoa, Numbered, LockOk, GrantsOk, DirsOk, Restage;
    match step
    case ExtractSome(u, t) => RestageKeepsInv(arch, s, u, Extracting, t);
    case FinishExtract(u) => RestageKeepsInv(arch, s, u, Extracted, ExtractionOf(arch, u).value);
    case WriteIndex(u) => RestageKeepsInv(arch, s, u, Indexed, WithIndex(s.staging[s.uploads[u].sid]));
  }

  lemma BeginKeepsInv(arch: Uploaded, s: State, u: Uid, sid: Sid)
    requires Inv(arch, s) && Enabled(arch, s, Begin(u, sid))
    ensures Inv(arch, Apply(arch, s, Begin(u, sid)))
  {
    hide IsUploadOf, ExtractionOf, WithIndex, IsHighest, Itoa, Numbered;
  }

  lemma LockKeepsInv(arch: Uploaded, s: State, u: Uid)
    requires Inv(arch, s) && At(s, u, Indexed) && s.lock == None
    ensures Inv(arch, MoveTo(s, u, Locked).(lock := Some(u)))
  {
    hide IsUploadOf, ExtractionOf, WithIndex, IsHighest, Itoa, Numbered, GrantsOk, DirsOk;
    MoveKeepsDirs(arch, s, MoveTo(s, u, Locked).(lock := Some(u)), u);
  }

  lemma ReadMaxKeepsInv(arch: Uploaded, s: State, u: Uid, last: nat)
    requires Inv(arch, s) && At(s, u, Locked) && IsHighest(s.versions, last)
    ensures Inv(arch, MoveTo(s, u, Reading(last)))
  {
    hide IsUploadOf, ExtractionOf, WithIndex, IsHighest, Itoa, Numbered, GrantsOk, DirsOk;
    MoveKeepsDirs(arch, s, MoveTo(s, u, Reading(last)), u);
  }

  lemma PutKeepsInv(arch: Uploaded, s: State, v: string)
    requires Inv(arch, s)
    ensures Inv(arch, s.(current := v))
  {
    hide IsUploadOf, ExtractionOf, WithIndex, IsHighest, Itoa, Numbered;
  }

  /** An uploaded version comes with its index, so the backfill passes it over. */
  lemma BackfillKeepsInv(arch: Uploaded, s: State, step: Step)
    requires Inv(arch, s) && Enabled(arch, s, step) && (step.BackfillOpen? || step.BackfillWrite? || step.BackfillDone?)
    ensures Inv(arch, Apply(arch, s, step))
  {
    hide ExtractionOf, IsHighest, Itoa, Numbered, EncodeIndex, IndexOf, IsUploadOf, LockOk, StagingOk, GrantsOk;
    SameUploads(arch, s, Apply(arch, s, step));
    forall g | g in s.grants && Itoa(g.number) in s.dirs ensures INDEX_PATH in s.dirs[Itoa(g.number)].files {
      UploadHasIndex(arch, g.upload, s.dirs[Itoa(g.number)]);
    }
  }

  lemma UploadHasIndex(arch: Uploaded, u: Uid, t: Tree)
    requires IsUploadOf(arch, u, t)
    ensures INDEX_PATH in t.files
  {
    hide Extract;
  }

  lemma SameUploads(arch: Uploaded, s: State, s': State)
    requires LockOk(s) && StagingOk(arch, s) && GrantsOk(s) && s' == s.(dirs := s'.dirs, indexing := s'.indexing)
    ensures LockOk(s') && StagingOk(arch, s') && GrantsOk(s')
  {
    hide ExtractionOf, IsHighest, Itoa, WithIndex, IsUploadOf;
  }

  lemma CrashKeepsInv(arch: Uploaded, s: State)
    requires Inv(arch, s)
    ensures Inv(arch, s.(uploads := map[], lock := None, indexing := {}))
  {
    hide IsUploadOf, ExtractionOf, WithIndex, IsHighest, Itoa, Numbered;
  }

  lemma StepKeepsInv(arch: Uploaded, s: State, step: Step)
    requires Inv(arch, s) && Enabled(arch, s, step)
    ensures Inv(arch, Apply(arch, s, step))
  {
    hide Inv, Extract, WithIndex;
    match step
    case Commit(u) => CommitKeepsInv(arch, s, u);
    case Rename(u) => RenameKeepsInv(arch, s, u);
    case Fail(u, leftover) => GiveUpKeepsInv(arch, s, u, leftover);
    case Begin(u, sid) => BeginKeepsInv(arch, s, u, sid);
    case Lock(u) => LockKeepsInv(arch, s, u);
    case ReadMax(u, last) => ReadMaxKeepsInv(arch, s, u, last);
    case PutCurrent(v) => PutKeepsInv(arch, s, v);
    case BackfillOpen(_) => BackfillKeepsInv(arch, s, step);
    case BackfillWrite(_, _) => BackfillKeepsInv(arch, s, step);
    case BackfillDone(_) => BackfillKeepsInv(arch, s, step);
    case Crash => CrashKeepsInv(arch, s);
    case _ => StageStepKeepsInv(arch, s, step);
  }

  // ----- Runs -----

  ghost predicate StepAt(arch: Uploaded, states: seq<State>, steps: seq<Step>, i: nat)
    requires |states| == |steps| + 1 && i < |steps|
  {
    Enabled(arch, states[i], steps[i]) && states[i + 1] == Apply(arch, states[i], steps[i])
  }

  ghost predicate Run(arch: Uploaded, states: seq<State>, steps: seq<Step>) {
    && |states| == |steps| + 1
    && Init(states[0])
    && forall i | 0 <= i < |steps| :: StepAt(arch, states, steps, i)
  }

  lemma {:induction false} RunKeepsInv(arch: Uploaded, states: seq<State>, steps: seq<Step>, i: nat)
    requires Run(arch, states, steps) && i < |states|
    ensures Inv(arch, states[i])
  {
    hide Enabled, Apply, IsUploadOf;
    if i > 0 {
      RunKeepsInv(arch, states, steps, i - 1);
      hide Inv;
      assert StepAt(arch, states, steps, i - 1);
      StepKeepsInv(arch, states[i - 1], steps[i - 1]);
    }
  }

  /** No two uploads get the same version, and each gets a greater one than those before it: at any
      point of any run the numbers given so far increase strictly, each to an upload of its own. */
  lemma VersionsIncrease(arch: Uploaded, states: seq<State>, steps: seq<Step>, i: nat, j: nat, k: nat)
    requires Run(arch, states, steps) && i < |states| && j < k < |states[i].grants|
    ensures states[i].grants[j].number < states[i].grants[k].number
    ensures states[i].grants[j].upload != states[i].grants[k].upload
    ensures Itoa(states[i].grants[j].number) != Itoa(states[i].grants[k].number)
  {
    hide Enabled, Apply, IsUploadOf, Itoa;
    RunKeepsInv(arch, states, steps, i);
    if Itoa(states[i].grants[j].number) == Itoa(states[i].grants[k].number) {
      ItoaInjective(states[i].grants[j].number, states[i].grants[k].number);
    }
  }

  /** A commit gives the highest recorded number plus one, or 1, whatever current_version was set to
      meanwhile, and records it and nothing else. */
  lemma CommitIsFresh(arch: Uploaded, states: seq<State>, steps: seq<Step>, i: nat, u: Uid, n: nat)
    requires Run(arch, states, steps) && i < |steps| && steps[i] == Commit(u)
    ensures u in states[i + 1].uploads && states[i + 1].uploads[u].phase.Committed?
    ensures var number := states[i + 1].uploads[u].phase.number;
            && (Itoa(n) in states[i].versions ==> n < number)
            && (if states[i].versions == {} then number == 1 else number >= 1 && Itoa(number - 1) in states[i].versions)
            && states[i + 1].versions == states[i].versions + {Itoa(number)}
            && Itoa(number) in states[i + 1].versions && states[i + 1].current == Itoa(number)
  {
    hide IsUploadOf, IsHighest, Itoa;
    RunKeepsInv(arch, states, steps, i);
    assert StepAt(arch, states, steps, i);
    if Itoa(n) in states[i].versions {
      NextIsGreater(states[i].versions, states[i].uploads[u].phase.last, n);
    }
    HighestIsRecorded(states[i].versions, states[i].uploads[u].phase.last);
  }

  lemma HighestIsRecorded(versions: set<string>, last: nat)
    requires Numbered(versions) && IsHighest(versions, last)
    ensures if versions == {} then last == 0 else Itoa(last) in versions
  {
    if versions != {} {
      var v :| v in versions && PgInt(v) == Some(last);
      var n: nat :| n >= 1 && v == Itoa(n);
      NumeralValue(n);
    }
  }

  /** The rename never meets an existing directory. */
  lemma RenameIsNeverBlocked(arch: Uploaded, states: seq<State>, steps: seq<Step>, i: nat, u: Uid)
    requires Run(arch, states, steps) && i < |states|
    requires u in states[i].uploads && states[i].uploads[u].phase.Committed?
    ensures Itoa(states[i].uploads[u].phase.number) !in states[i].dirs
    ensures Enabled(arch, states[i], Rename(u))
  {
    hide IsUploadOf, Itoa, Apply;
    RunKeepsInv(arch, states, steps, i);
  }

  /** A version's directory holds its own upload's archive and index and no other's, and every
      directory belongs to a recorded version. */
  lemma DirectoryIsItsUploads(arch: Uploaded, states: seq<State>, steps: seq<Step>, i: nat, g: Grant)
    requires Run(arch, states, steps) && i < |states| && g in states[i].grants
    ensures states[i].dirs.Keys <= states[i].versions
    ensures Itoa(g.number) in states[i].versions
    ensures Itoa(g.number) in states[i].dirs ==> IsUploadOf(arch, g.upload, states[i].dirs[Itoa(g.number)])
  {
    hide IsUploadOf, Itoa, Apply, Enabled;
    RunKeepsInv(arch, states, steps, i);
  }

  /** t' is t, or t with a part of the index of its tiles in place of what index it had. */
  ghost predicate SameButIndex(t: Tree, t': Tree) {
    || t' == t
    || (INDEX_PATH in t'.files && t' == Reindexed(t, t'.files[INDEX_PATH]) && t'.files[INDEX_PATH] <= EncodeIndex(IndexOf(t)))
  }

  ghost predicate IsIndexed(s: State, v: string) {
    v in s.dirs && INDEX_PATH in s.dirs[v].files && v !in s.indexing
  }

  /** Once in place a version's directory stays, unchanged if it has an index, as every upload has, and
      otherwise but for the index that the backfill gives it, all of it or, cut off, a part. */
  lemma {:induction false} DirectoryStays(arch: Uploaded, states: seq<State>, steps: seq<Step>, i: nat, j: nat, v: string)
    requires Run(arch, states, steps) && i <= j < |states| && v in states[i].dirs
    ensures v in states[j].dirs && SameButIndex(states[i].dirs[v], states[j].dirs[v])
    ensures IsIndexed(states[i], v) ==> IsIndexed(states[j], v) && states[j].dirs[v] == states[i].dirs[v]
    decreases j
  {
    hide Extract, WithIndex, IsHighest, Init, SameButIndex, IsIndexed, Enabled, Apply;
    if j > i {
      DirectoryStays(arch, states, steps, i, j - 1, v);
      assert StepAt(arch, states, steps, j - 1);
      OneStepOnDirectory(arch, states[j - 1], steps[j - 1], v);
      Twice(states[i].dirs[v], states[j - 1].dirs[v], states[j].dirs[v]);
    } else {
      assert SameButIndex(states[i].dirs[v], states[j].dirs[v]) by { Once(states[i].dirs[v]); }
    }
  }

  lemma Once(t: Tree)
    ensures SameButIndex(t, t)
  {
  }

  lemma Twice(t: Tree, t': Tree, t'': Tree)
    requires SameButIndex(t, t') && SameButIndex(t', t'')
    ensures SameButIndex(t, t'')
  {
    hide EncodeIndex, TilesAt;
    if t' != t { IndexChangesNoTile(t, t'.files[INDEX_PATH]); }
  }

  lemma OneStepOnDirectory(arch: Uploaded, s: State, step: Step, v: string)
    requires Enabled(arch, s, step) && v in s.dirs
    ensures var s' := Apply(arch, s, step);
            && v in s'.dirs && SameButIndex(s.dirs[v], s'.dirs[v])
            && (IsIndexed(s, v) ==> IsIndexed(s', v) && s'.dirs[v] == s.dirs[v])
  {
    hide Extract, WithIndex, IsHighest, EncodeIndex, IndexOf;
  }

  /** In particular an upload's directory never changes. */
  lemma UploadNeverChanges(arch: Uploaded, states: seq<State>, steps: seq<Step>, i: nat, j: nat, g: Grant)
    requires Run(arch, states, steps) && i <= j < |states| && g in states[i].grants && Itoa(g.number) in states[i].dirs
    ensures Itoa(g.number) in states[j].dirs && states[j].dirs[Itoa(g.number)] == states[i].dirs[Itoa(g.number)]
  {
    hide Enabled, Apply, IsUploadOf, Itoa, LockOk, StagingOk, GrantsOk, Numbered, SameButIndex;
    RunKeepsInv(arch, states, steps, i);
    UploadHasIndex(arch, g.upload, states[i].dirs[Itoa(g.number)]);
    DirectoryStays(arch, states, steps, i, j, Itoa(g.number));
  }

  // ----- The end of the numbers -----

  /** One more recorded version changes what is highest as far as it is greater. */
  lemma AddHighest(versions: set<string>, below: nat, v: string, n: nat)
    requires IsHighest(versions, below) && n >= 1 && PgInt(v) == Some(n)
    ensures IsHighest(versions + {v}, if below > n then below else n)
  {
    hide PgInt;
    var all := versions + {v};
    assert v in all;
    if below > n {
      var w :| w in versions && PgInt(w) == Some(below);
      assert w in all;
    }
  }

  lemma {:induction false} HighestOf(versions: set<string>) returns (last: nat)
    requires Numbered(versions) && forall n: nat | Itoa(n) in versions :: n <= MAX_INT32
    ensures IsHighest(versions, last)
    decreases |versions|
  {
    hide PgInt, Itoa;
    if versions == {} {
      last := 0;
    } else {
      var v :| v in versions;
      var n: nat :| n >= 1 && v == Itoa(n);
      NumeralValue(n);
      var rest := versions - {v};
      var below := HighestOf(rest);
      AddHighest(rest, below, v, n);
      last := if below > n then below else n;
      assert rest + {v} == versions;
    }
  }

  /** The highest number can be read if and only if no recorded number exceeds the largest 32-bit int. */
  lemma HighestExistsIff(versions: set<string>)
    requires Numbered(versions)
    ensures (exists last :: IsHighest(versions, last)) <==> forall n: nat | Itoa(n) in versions :: n <= MAX_INT32
  {
    if forall n: nat | Itoa(n) in versions :: n <= MAX_INT32 {
      var last := HighestOf(versions);
      assert IsHighest(versions, last);
    } else {
      var n: nat :| Itoa(n) in versions && n > MAX_INT32;
      NumeralValue(n);
      hide Itoa, PgInt;
      assert forall last :: !IsHighest(versions, last);
    }
  }

  lemma VersionsStay(arch: Uploaded, s: State, step: Step)
    requires Enabled(arch, s, step)
    ensures s.versions <= Apply(arch, s, step).versions
  {
    hide Extract, WithIndex, IsHighest;
  }

  lemma {:induction false} RecordedStays(arch: Uploaded, states: seq<State>, steps: seq<Step>, i: nat, j: nat, v: string)
    requires Run(arch, states, steps) && i <= j < |states| && v in states[i].versions
    ensures v in states[j].versions
    decreases j
  {
    hide Enabled, Apply, Init;
    if j > i {
      RecordedStays(arch, states, steps, i, j - 1, v);
      assert StepAt(arch, states, steps, j - 1);
      VersionsStay(arch, states[j - 1], steps[j - 1]);
    }
  }

  /** A number is read, and committed, on the strength of a highest one recorded. */
  lemma NumberingNeedsHighest(arch: Uploaded, s: State, step: Step)
    requires Inv(arch, s) && Enabled(arch, s, step) && (step.ReadMax? || step.Commit?)
    ensures exists last :: IsHighest(s.versions, last)
  {
    hide IsHighest, Itoa, StagingOk, GrantsOk, DirsOk, Numbered, Extract;
    if step.ReadMax? {
      assert IsHighest(s.versions, step.last);
    } else {
      assert IsHighest(s.versions, s.uploads[step.u].phase.last);
    }
  }

  /** Past the largest 32-bit int the map takes no further upload, for the rest of the run: the highest
      number is never read and none is committed again. */
  lemma NumbersEndAtMaxInt(arch: Uploaded, states: seq<State>, steps: seq<Step>, i: nat, j: nat, n: nat)
    requires Run(arch, states, steps) && i <= j < |steps|
    requires Itoa(n) in states[i].versions && n > MAX_INT32
    ensures !steps[j].ReadMax? && !steps[j].Commit?
  {
    hide Apply, Enabled, IsHighest, Itoa, StagingOk, GrantsOk, DirsOk, Numbered, LockOk;
    RecordedStays(arch, states, steps, i, j, Itoa(n));
    RunKeepsInv(arch, states, steps, j);
    assert StepAt(arch, states, steps, j);
    HighestExistsIff(states[j].versions);
    if steps[j].ReadMax? || steps[j].Commit? {
      NumberingNeedsHighest(arch, states[j], steps[j]);
    }
  }

  // ----- The current version and the backfill -----

  lemma StepOnCurrent(arch: Uploaded, s: State, step: Step)
    requires Enabled(arch, s, step)
    ensures var s' := Apply(arch, s, step);
            && (step.PutCurrent? ==> s'.current == step.version)
            && (!step.PutCurrent? && !step.Commit? ==> s'.current == s.current)
  {
    hide Extract, WithIndex, IsHighest, EncodeIndex, IndexOf;
  }

  /** An edit of the current version lasts until the next edit or commit. */
  lemma {:induction false} CurrentIsLastPut(arch: Uploaded, states: seq<State>, steps: seq<Step>, i: nat, j: nat, v: string)
    requires Run(arch, states, steps) && i < j < |states| && steps[i] == PutCurrent(v)
    requires forall k | i < k < j :: !steps[k].PutCurrent? && !steps[k].Commit?
    ensures states[j].current == v
    decreases j
  {
    hide Enabled, Apply, Init;
    assert StepAt(arch, states, steps, j - 1);
    StepOnCurrent(arch, states[j - 1], steps[j - 1]);
    if j - 1 > i { CurrentIsLastPut(arch, states, steps, i, j - 1, v); }
  }

  lemma WrittenWhole(t: Tree)
    ensures var index := EncodeIndex(IndexOf(t));
            && IndexOf(Reindexed(t, index[..0])) == IndexOf(t)
            && Reindexed(Reindexed(t, index[..0]), index[..|index|]) == WithIndex(t)
  {
    hide EncodeIndex, TilesAt, SortedCoords;
    var index := EncodeIndex(IndexOf(t));
    IndexChangesNoTile(t, index[..0]);
    assert index[..|index|] == index;
    assert Reindexed(Reindexed(t, index[..0]), index) == WithIndex(t);
  }

  /** Opening and then writing all of it gives a directory that lacks one the index of its tiles. */
  lemma BackfillCompletes(s: State, v: string)
    requires v in s.dirs && INDEX_PATH !in s.dirs[v].files
    ensures var s1, n := WroteIndex(s, v, 0, s.indexing + {v}), |EncodeIndex(IndexOf(s.dirs[v]))|;
            && v in s1.dirs && IndexOf(s1.dirs[v]) == IndexOf(s.dirs[v])
            && WroteIndex(s1, v, n, s1.indexing).dirs == s.dirs[v := WithIndex(s.dirs[v])]
  {
    hide EncodeIndex, IndexOf, WithIndex, Reindexed;
    WrittenWhole(s.dirs[v]);
  }
}
