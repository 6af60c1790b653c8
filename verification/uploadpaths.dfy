/** The handler of an upload from its first step to its last, with nothing else going on. */
module UploadPaths {
  import opened Archive
  import opened Numerals
  import opened TileIndex
  import opened Upload
  import opened Wrappers

  ghost predicate Takes(arch: Uploaded, s: State, step: Step, s': State) {
    Enabled(arch, s, step) && s' == Apply(arch, s, step)
  }

  /** From s these steps, one after the other, lead to s'. */
  ghost predicate Leads(arch: Uploaded, s: State, steps: seq<Step>, s': State)
    decreases |steps|
  {
    if steps == [] then s' == s
    else exists mid :: Takes(arch, s, steps[0], mid) && Leads(arch, mid, steps[1..], s')
  }

  lemma LeadsFrom(arch: Uploaded, s: State, step: Step, mid: State, rest: seq<Step>, s': State)
    requires Takes(arch, s, step, mid) && Leads(arch, mid, rest, s')
    ensures Leads(arch, s, [step] + rest, s')
  {
    hide Takes;
    assert ([step] + rest)[1..] == rest;
  }

  /** What the handler does with an archive it can extract. */
  function HandlerSteps(u: Uid, sid: Sid, last: nat): seq<Step> {
    [Begin(u, sid)] + ([FinishExtract(u)] + ([WriteIndex(u)] + ([Lock(u)] + NumberSteps(u, last))))
  }

  function NumberSteps(u: Uid, last: nat): seq<Step> {
    [ReadMax(u, last)] + ([Commit(u)] + ([Rename(u)] + []))
  }

  /** The upload has got to phase, its staging directory holding t. */
  function Midway(s: State, u: Uid, sid: Sid, phase: Phase, t: Tree): State {
    s.(uploads := s.uploads[u := Upload(sid, phase)], seen := s.seen + {u}, staging := s.staging[sid := t])
  }

  /** All of it is done. */
  ghost function Finished(s: State, u: Uid, number: nat, t: Tree): State {
    s.(versions := s.versions + {Itoa(number)}, current := Itoa(number), dirs := s.dirs[Itoa(number) := t],
       seen := s.seen + {u}, grants := s.grants + [Grant(u, number)])
  }

  lemma BeginStep(arch: Uploaded, s: State, u: Uid, sid: Sid)
    requires u !in s.seen && sid !in s.staging
    ensures Takes(arch, s, Begin(u, sid), Midway(s, u, sid, Extracting, EMPTY_TREE))
  {
    hide Extract, WithIndex;
  }

  lemma ExtractStep(arch: Uploaded, s: State, u: Uid, sid: Sid)
    requires ExtractionOf(arch, u).Ok?
    ensures Takes(arch, Midway(s, u, sid, Extracting, EMPTY_TREE), FinishExtract(u),
                  Midway(s, u, sid, Extracted, ExtractionOf(arch, u).value))
  {
    hide Extract, WithIndex;
  }

  lemma IndexStep(arch: Uploaded, s: State, u: Uid, sid: Sid, t: Tree)
    ensures Takes(arch, Midway(s, u, sid, Extracted, t), WriteIndex(u), Midway(s, u, sid, Indexed, WithIndex(t)))
  {
    hide Extract, WithIndex;
  }

  /** The map's row is locked by the upload. */
  function Holding(s: State, u: Uid, sid: Sid, phase: Phase, t: Tree): State {
    Midway(s, u, sid, phase, t).(lock := Some(u))
  }

  lemma LockStep(arch: Uploaded, s: State, u: Uid, sid: Sid, t: Tree)
    requires s.lock == None
    ensures Takes(arch, Midway(s, u, sid, Indexed, t), Lock(u), Holding(s, u, sid, Locked, t))
  {
    hide IsHighest, Itoa, Extract, WithIndex;
  }

  lemma ReadStep(arch: Uploaded, s: State, u: Uid, sid: Sid, t: Tree, last: nat)
    requires IsHighest(s.versions, last)
    ensures Takes(arch, Holding(s, u, sid, Locked, t), ReadMax(u, last), Holding(s, u, sid, Reading(last), t))
  {
    hide IsHighest, Itoa, Extract, WithIndex;
  }

  lemma CommitStep(arch: Uploaded, s: State, u: Uid, sid: Sid, t: Tree, last: nat)
    requires s.lock == None
    ensures Takes(arch, Holding(s, u, sid, Reading(last), t), Commit(u), Committing(s, u, sid, t, last + 1))
  {
    hide IsHighest, Itoa, Extract, WithIndex;
  }

  function Committing(s: State, u: Uid, sid: Sid, t: Tree, n: nat): State {
    Midway(s, u, sid, Committed(n), t)
    .(versions := s.versions + {Itoa(n)}, current := Itoa(n), grants := s.grants + [Grant(u, n)])
  }

  lemma RenameStep(arch: Uploaded, s: State, u: Uid, sid: Sid, t: Tree, n: nat)
    requires u !in s.uploads && sid !in s.staging && Itoa(n) !in s.dirs
    ensures Takes(arch, Committing(s, u, sid, t, n), Rename(u), Finished(s, u, n, t))
  {
    hide Itoa, Extract;
    assert s.uploads[u := Upload(sid, Committed(n))] - {u} == s.uploads;
    assert s.staging[sid := t] - {sid} == s.staging;
  }

  /** Nobody has recorded the number after the highest. */
  lemma NextIsFree(arch: Uploaded, s: State, last: nat)
    requires Inv(arch, s) && IsHighest(s.versions, last)
    ensures Itoa(last + 1) !in s.dirs
  {
    hide StagingOk, GrantsOk, LockOk, Itoa, IsHighest;
    if Itoa(last + 1) in s.dirs { NextIsGreater(s.versions, last, last + 1); }
  }

  lemma SeenUploads(arch: Uploaded, s: State, u: Uid)
    requires Inv(arch, s) && u !in s.seen
    ensures u !in s.uploads
  {
    hide LockOk, GrantsOk, DirsOk, IsUploadOf;
  }

  /** An upload of an archive that extracts records the highest number plus one, makes it current and puts
      the archive's tiles and their index in its directory, and leaves everything else as it was. */
  lemma UploadSucceeds(arch: Uploaded, s: State, u: Uid, sid: Sid, last: nat)
    requires Inv(arch, s) && s.lock == None && u !in s.seen && sid !in s.staging
    requires ExtractionOf(arch, u).Ok? && IsHighest(s.versions, last)
    ensures Leads(arch, s, HandlerSteps(u, sid, last), Finished(s, u, last + 1, WithIndex(ExtractionOf(arch, u).value)))
  {
    hide *;
    var t := WithIndex(ExtractionOf(arch, u).value);
    var s' := Finished(s, u, last + 1, t);
    NextIsFree(arch, s, last);
    SeenUploads(arch, s, u);
    Nowhere(arch, s');
    RenameStep(arch, s, u, sid, t, last + 1);
    LeadsFrom(arch, Committing(s, u, sid, t, last + 1), Rename(u), s', [], s');
    CommitStep(arch, s, u, sid, t, last);
    LeadsFrom(arch, Holding(s, u, sid, Reading(last), t), Commit(u), Committing(s, u, sid, t, last + 1), [Rename(u)] + [], s');
    ReadStep(arch, s, u, sid, t, last);
    LeadsFrom(arch, Holding(s, u, sid, Locked, t), ReadMax(u, last), Holding(s, u, sid, Reading(last), t), [Commit(u)] + ([Rename(u)] + []), s');
    SpellNumberSteps(u, last);
    LockStep(arch, s, u, sid, t);
    LeadsFrom(arch, Midway(s, u, sid, Indexed, t), Lock(u), Holding(s, u, sid, Locked, t), NumberSteps(u, last), s');
    var rest, extracted := [Lock(u)] + NumberSteps(u, last), Midway(s, u, sid, Extracted, ExtractionOf(arch, u).value);
    IndexStep(arch, s, u, sid, ExtractionOf(arch, u).value);
    LeadsFrom(arch, extracted, WriteIndex(u), Midway(s, u, sid, Indexed, t), rest, s');
    ExtractStep(arch, s, u, sid);
    LeadsFrom(arch, Midway(s, u, sid, Extracting, EMPTY_TREE), FinishExtract(u), extracted, [WriteIndex(u)] + rest, s');
    BeginStep(arch, s, u, sid);
    LeadsFrom(arch, s, Begin(u, sid), Midway(s, u, sid, Extracting, EMPTY_TREE), [FinishExtract(u)] + ([WriteIndex(u)] + rest), s');
    SpellHandlerSteps(u, sid, last);
  }

  lemma Nowhere(arch: Uploaded, s: State)
    ensures Leads(arch, s, [], s)
  {
  }

  lemma SpellNumberSteps(u: Uid, last: nat)
    ensures NumberSteps(u, last) == [ReadMax(u, last)] + ([Commit(u)] + ([Rename(u)] + []))
  {
  }

  lemma SpellHandlerSteps(u: Uid, sid: Sid, last: nat)
    ensures HandlerSteps(u, sid, last)
         == [Begin(u, sid)] + ([FinishExtract(u)] + ([WriteIndex(u)] + ([Lock(u)] + NumberSteps(u, last))))
  {
  }

  // ----- When it cannot -----

  lemma FirstStep(arch: Uploaded, s: State, step: Step, rest: seq<Step>, s': State) returns (mid: State)
    requires Leads(arch, s, [step] + rest, s') && Inv(arch, s)
    ensures Takes(arch, s, step, mid) && Leads(arch, mid, rest, s')
    ensures Inv(arch, mid) && s.versions <= mid.versions
  {
    hide Enabled, Apply, Inv;
    mid :| Takes(arch, s, ([step] + rest)[0], mid) && Leads(arch, mid, ([step] + rest)[1..], s');
    assert ([step] + rest)[1..] == rest;
    StepKeepsInv(arch, s, step);
    VersionsStay(arch, s, step);
  }

  ghost predicate NumbersFit(versions: set<string>) {
    forall n: nat | Itoa(n) in versions :: n <= MAX_INT32
  }

  ghost predicate Succeeds(arch: Uploaded, s: State, u: Uid, sid: Sid) {
    exists last: nat, s' :: Leads(arch, s, HandlerSteps(u, sid, last), s')
  }

  lemma SuccessNeeds(arch: Uploaded, s: State, u: Uid, sid: Sid, last: nat, s': State)
    requires Inv(arch, s) && Leads(arch, s, HandlerSteps(u, sid, last), s')
    ensures ExtractionOf(arch, u).Ok? && NumbersFit(s.versions)
  {
    hide Inv, Apply, Leads, Itoa, ExtractionOf, IsHighest;
    var s1 := FirstStep(arch, s, Begin(u, sid), [FinishExtract(u)] + ([WriteIndex(u)] + ([Lock(u)] + NumberSteps(u, last))), s');
    var s2 := FirstStep(arch, s1, FinishExtract(u), [WriteIndex(u)] + ([Lock(u)] + NumberSteps(u, last)), s');
    var s3 := FirstStep(arch, s2, WriteIndex(u), [Lock(u)] + NumberSteps(u, last), s');
    var s4 := FirstStep(arch, s3, Lock(u), NumberSteps(u, last), s');
    var s5 := FirstStep(arch, s4, ReadMax(u, last), [Commit(u)] + ([Rename(u)] + []), s');
    ReadNumbersFit(s.versions, s4.versions, last);
  }

  lemma ReadNumbersFit(some: set<string>, versions: set<string>, last: nat)
    requires IsHighest(versions, last) && some <= versions
    ensures NumbersFit(some)
  {
    hide Itoa, PgInt;
    forall n: nat | Itoa(n) in some ensures n <= MAX_INT32 { NumeralValue(n); }
  }

  lemma AreNumbered(arch: Uploaded, s: State)
    requires Inv(arch, s)
    ensures Numbered(s.versions)
  {
  }

  /** Left to itself the handler succeeds if and only if the archive extracts and no recorded number
      exceeds the largest 32-bit int. */
  lemma UploadSucceedsIff(arch: Uploaded, s: State, u: Uid, sid: Sid)
    requires Inv(arch, s) && s.lock == None && u !in s.seen && sid !in s.staging
    ensures Succeeds(arch, s, u, sid)
       <==> ExtractionOf(arch, u).Ok? && NumbersFit(s.versions)
  {
    hide Inv, Leads, HandlerSteps, IsHighest, ExtractionOf, Itoa;
    if Succeeds(arch, s, u, sid) {
      var last: nat, s' :| Leads(arch, s, HandlerSteps(u, sid, last), s');
      SuccessNeeds(arch, s, u, sid, last, s');
    } else if ExtractionOf(arch, u).Ok? && NumbersFit(s.versions) {
      AreNumbered(arch, s);
      HighestExistsIff(s.versions);
      var n :| IsHighest(s.versions, n);
      HighestIsNat(s.versions, n);
      UploadSucceeds(arch, s, u, sid, n);
    }
  }

  lemma HighestIsNat(versions: set<string>, n: int)
    requires Numbered(versions) && IsHighest(versions, n)
    ensures n >= 0
  {
    if versions != {} {
      var v :| v in versions && PgInt(v) == Some(n);
      var k: nat :| k >= 1 && v == Itoa(k);
      NumeralValue(k);
    }
  }
}
