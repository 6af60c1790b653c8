/** What one error-free pass over one map leaves in the database, as functions of what was there and
    of what the remote answered; when that is a mirror of the remote; and that a further pass against
    the same remote has nothing left to do. */
module SyncPass {
  import opened Archive
  import opened GeoMirror
  import opened Lists
  import opened SyncDiff
  import opened Wrappers
  import M = MirrorPull

  datatype Row = Row(name: string, visibleToAll: bool, anonymousAllowed: bool, current: string)

  /** Everything the local server holds about one mirrored map; geo is the whole geo_objects table. */
  datatype Local = Local(
    row: Option<Row>, recorded: map<Version, VersionRecord>, aliases: map<string, Version>,
    geo: Table, dirs: map<Version, Tree>)

  /** The remote's answers about the map, the same throughout a pass. */
  datatype RemoteMap = RemoteMap(
    name: string, visibleToAll: bool, anonymousAllowed: bool, current: string,
    versions: seq<VersionRecord>, aliases: seq<AliasRecord>, geo: Listing)

  // ----- What the local side always satisfies -----

  /** The current version is recorded, or there is none. */
  ghost predicate RowOk(row: Option<Row>, recorded: map<Version, VersionRecord>) {
    match row
    case None => recorded == map[]
    case Some(r) => r.current == "" || r.current in recorded
  }

  /** Every recorded version has its complete directory. */
  ghost predicate DirsOk(arch: M.Archives, recorded: map<Version, VersionRecord>, dirs: map<Version, Tree>) {
    forall v | v in recorded :: recorded[v].version == v && v in dirs && M.Complete(arch, v, dirs[v])
  }

  ghost predicate AliasesOk(aliases: map<string, Version>, recorded: map<Version, VersionRecord>) {
    forall a | a in aliases :: aliases[a] in recorded
  }

  ghost predicate Sound(arch: M.Archives, s: Local) {
    && RowOk(s.row, s.recorded) && DirsOk(arch, s.recorded, s.dirs) && AliasesOk(s.aliases, s.recorded) && GeoOk(s.geo)
  }

  // ----- Versions -----

  function Names(vs: seq<VersionRecord>): seq<Version> { seq(|vs|, i requires 0 <= i < |vs| => vs[i].version) }

  function RecordOne(r: map<Version, VersionRecord>, v: VersionRecord): map<Version, VersionRecord> {
    if v.version in r then r else r[v.version := v]
  }

  function RecordAll(r: map<Version, VersionRecord>, vs: seq<VersionRecord>): (r': map<Version, VersionRecord>)
    ensures forall v | v in r :: v in r' && r'[v] == r[v]
    ensures forall x | x in vs :: x.version in r'
    ensures forall v | v in r' && v !in r :: r'[v] in vs && r'[v].version == v
  {
    if vs == [] then r
    else
      assert vs == vs[..|vs| - 1] + [vs[|vs| - 1]];
      RecordOne(RecordAll(r, vs[..|vs| - 1]), vs[|vs| - 1])
  }

  /** r' is r together with a row for every listed version that r did not have. */
  ghost predicate Pulled(r: map<Version, VersionRecord>, r': map<Version, VersionRecord>, vs: seq<VersionRecord>) {
    && (forall v | v in r :: v in r' && r'[v] == r[v])
    && (forall x | x in vs :: x.version in r')
    && (forall v | v in r' && v !in r :: r'[v] in vs && r'[v].version == v)
  }

  // ----- Aliases -----

  function SetAll(a: map<string, Version>, s: seq<AliasRecord>, recorded: set<Version>): map<string, Version> {
    if s == [] then a
    else
      var before := SetAll(a, s[..|s| - 1], recorded);
      if s[|s| - 1].version in recorded then before[s[|s| - 1].alias := s[|s| - 1].version] else before
  }

  /** The alias rows after reconcileMapAliases. */
  function AliasPass(a: map<string, Version>, remote: seq<AliasRecord>, recorded: set<Version>): map<string, Version> {
    SetAll(a, Filter(remote, AliasDiffers(a)), recorded) - (a.Keys - ByAlias(remote).Keys)
  }

  ghost predicate InSet(a: map<string, Version>, recorded: set<Version>) {
    forall n | n in a :: a[n] in recorded
  }

  ghost predicate DistinctAliases(s: seq<AliasRecord>) {
    forall i, j | 0 <= i < j < |s| :: s[i].alias != s[j].alias
  }

  /** Name by name: a remote alias gets its remote target once that is recorded and keeps its old
      target until then; other names go. */
  function FinalAliases(a: map<string, Version>, remote: map<string, Version>, recorded: set<Version>): map<string, Version> {
    map n | n in remote && (remote[n] in recorded || n in a) :: if remote[n] in recorded then remote[n] else a[n]
  }

  lemma {:induction false} SetAllAt(a: map<string, Version>, remote: seq<AliasRecord>, recorded: set<Version>, n: string)
    requires DistinctAliases(remote)
    ensures var m := SetAll(a, Filter(remote, AliasDiffers(a)), recorded);
            var r := ByAlias(remote);
            if n in r && AliasDiffers(a)(AliasRecord(n, r[n])) && r[n] in recorded then n in m && m[n] == r[n]
            else (n in m <==> n in a) && (n in a ==> m[n] == a[n])
  {
    if remote != [] {
      var k := |remote| - 1;
      var front, last := remote[..k], remote[k];
      SetAllAt(a, front, recorded, n);
      LastAlias(a, front, last, recorded);
      hide SetAll, ByAlias, Filter, AliasDiffers;
      assert front + [last] == remote;
      assert last.alias !in ByAlias(front) by {
        assert forall x | x in front :: x.alias != last.alias;
      }
      assert ByAlias(remote) == ByAlias(front)[last.alias := last.version];
      if n != last.alias {
        assert Look(ByAlias(remote), n) == Look(ByAlias(front), n);
      }
    }
  }

  /** One more alias at the end of the remote's list. */
  lemma LastAlias(a: map<string, Version>, front: seq<AliasRecord>, last: AliasRecord, recorded: set<Version>)
    ensures ByAlias(front + [last]) == ByAlias(front)[last.alias := last.version]
    ensures var m := SetAll(a, Filter(front, AliasDiffers(a)), recorded);
            SetAll(a, Filter(front + [last], AliasDiffers(a)), recorded)
            == if AliasDiffers(a)(last) && last.version in recorded then m[last.alias := last.version] else m
  {
    assert (front + [last])[..|front|] == front;
    var f := Filter(front, AliasDiffers(a));
    FilterLast(front, AliasDiffers(a), last);
    hide Filter;
    SetOneMore(a, f, last, recorded);
  }

  lemma SetOneMore(a: map<string, Version>, s: seq<AliasRecord>, last: AliasRecord, recorded: set<Version>)
    ensures var m := SetAll(a, s, recorded);
            SetAll(a, s + [last], recorded) == if last.version in recorded then m[last.alias := last.version] else m
  {
    assert (s + [last])[..|s|] == s;
  }

  lemma AliasPassIsFinal(a: map<string, Version>, remote: seq<AliasRecord>, recorded: set<Version>)
    requires DistinctAliases(remote) && InSet(a, recorded)
    ensures AliasPass(a, remote, recorded) == FinalAliases(a, ByAlias(remote), recorded)
  {
    forall n {:trigger n in a} ensures Look(AliasPass(a, remote, recorded), n) == Look(FinalAliases(a, ByAlias(remote), recorded), n) {
      SetAllAt(a, remote, recorded, n);
    }
    SameLookups(AliasPass(a, remote, recorded), FinalAliases(a, ByAlias(remote), recorded));
  }

  function Look(m: map<string, Version>, n: string): Option<Version> { if n in m then Some(m[n]) else None }

  lemma SameLookups(m: map<string, Version>, m': map<string, Version>)
    requires forall n :: Look(m, n) == Look(m', n)
    ensures m == m'
  {
    assert forall n | n in m :: Look(m, n).Some? && Look(m', n) == Look(m, n);
    assert forall n | n in m' :: Look(m', n).Some? && Look(m, n) == Look(m', n);
  }

  /** The aliases become the remote's exactly if every remote alias points at a recorded version. */
  lemma AliasesConvergeIff(a: map<string, Version>, remote: seq<AliasRecord>, recorded: set<Version>)
    requires DistinctAliases(remote) && InSet(a, recorded)
    ensures AliasPass(a, remote, recorded) == ByAlias(remote) <==> forall r | r in remote :: r.version in recorded
  {
    AliasPassIsFinal(a, remote, recorded);
    var m, f := ByAlias(remote), FinalAliases(a, ByAlias(remote), recorded);
    forall r | r in remote ensures m[r.alias] == r.version {
      assert AliasRecord(r.alias, m[r.alias]) in remote;
    }
    hide AliasPass, ByAlias;
    if f == m {
      forall r | r in remote ensures r.version in recorded {
        assert r.alias in f && f[r.alias] == r.version;
      }
    }
    if forall r | r in remote :: r.version in recorded {
      forall n ensures Look(f, n) == Look(m, n) {
        assert n in m ==> AliasRecord(n, m[n]) in remote;
      }
      SameLookups(f, m);
    }
  }

  // ----- Geo objects -----

  function RowsAt(t: Table, id: MapId, v: Version): map<Uuid, Geo> {
    map u | u in t && At(t[u], id, v) :: t[u]
  }

  function UpsertAll(t: Table, s: seq<Geo>): Table {
    if s == [] then t
    else
      var before := UpsertAll(t, s[..|s| - 1]);
      before[s[|s| - 1].uuid := Upsert(Get(before, s[|s| - 1].uuid), s[|s| - 1])]
  }

  /** The table without those of the given rows that are this version's. */
  function Without(t: Table, id: MapId, v: Version, gone: set<Uuid>): Table {
    map u | u in t && !(At(t[u], id, v) && u in gone) :: t[u]
  }

  /** The geo_objects table after syncGeoObjectsForVersion. */
  function GeoPass(t: Table, id: MapId, v: Version, objs: seq<Geo>): Table {
    UpsertAll(t, Filter(objs, GeoDiffers(RowsAt(t, id, v)))) - (RowsAt(t, id, v).Keys - ById(objs).Keys)
  }

  function GeoPassAll(t: Table, id: MapId, vs: seq<Version>, geo: Listing): Table {
    if vs == [] then t
    else GeoPass(GeoPassAll(t, id, vs[..|vs| - 1], geo), id, vs[|vs| - 1], geo(vs[|vs| - 1]))
  }

  ghost predicate UniqueIds(objs: seq<Geo>) {
    forall i, j | 0 <= i < j < |objs| :: objs[i].uuid != objs[j].uuid
  }

  /** One row before and after the upserts, given the remote's object of that uuid. */
  function Written(row: Option<Geo>, obj: Option<Geo>, local: map<Uuid, Geo>): Option<Geo> {
    if obj.Some? && GeoDiffers(local)(obj.value) then Some(Upsert(row, obj.value)) else row
  }

  lemma {:induction false} UpsertAllAt(t: Table, objs: seq<Geo>, local: map<Uuid, Geo>, u: Uuid)
    requires UniqueIds(objs)
    ensures Get(UpsertAll(t, Filter(objs, GeoDiffers(local))), u) == Written(Get(t, u), Get(ById(objs), u), local)
  {
    if objs != [] {
      var k := |objs| - 1;
      UpsertAllAt(t, objs[..k], local, u);
      LastObject(t, objs[..k], objs[k], local, u);
      LastIsNew(objs);
      hide UpsertAll, ById, Filter, Upsert, UniqueIds, GeoDiffers;
      assert objs[..k] + [objs[k]] == objs;
    }
  }

  lemma LastIsNew(objs: seq<Geo>)
    requires UniqueIds(objs) && objs != []
    ensures Get(ById(objs[..|objs| - 1]), objs[|objs| - 1].uuid) == None
  {
    assert forall x | x in objs[..|objs| - 1] :: x.uuid != objs[|objs| - 1].uuid;
  }

  /** One more object at the end of the remote's list. */
  lemma LastObject(t: Table, front: seq<Geo>, last: Geo, local: map<Uuid, Geo>, u: Uuid)
    ensures Get(ById(front + [last]), u) == if u == last.uuid then Some(last) else Get(ById(front), u)
    ensures var before := Get(UpsertAll(t, Filter(front, GeoDiffers(local))), u);
            Get(UpsertAll(t, Filter(front + [last], GeoDiffers(local))), u)
            == if u == last.uuid then Written(before, Some(last), local) else before
  {
    assert (front + [last])[..|front|] == front;
    var f := Filter(front, GeoDiffers(local));
    FilterLast(front, GeoDiffers(local), last);
    hide Filter;
    assert (f + [last])[..|f|] == f;
  }

  /** Row by row, the loops do what StepRow says. */
  lemma GeoPassIsSyncVersion(t: Table, id: MapId, v: Version, objs: seq<Geo>)
    requires UniqueIds(objs) && GeoOk(t)
    ensures GeoPass(t, id, v, objs) == SyncVersion(t, id, v, objs)
  {
    var p, q := GeoPass(t, id, v, objs), SyncVersion(t, id, v, objs);
    forall u {:trigger Get(p, u)} ensures Get(p, u) == Get(q, u) {
      GeoPassAt(t, id, v, objs, u);
    }
    hide GeoPass, SyncVersion;
    SameRows(p, q);
  }

  lemma GeoPassAt(t: Table, id: MapId, v: Version, objs: seq<Geo>, u: Uuid)
    requires UniqueIds(objs) && GeoOk(t)
    ensures Get(GeoPass(t, id, v, objs), u) == Get(SyncVersion(t, id, v, objs), u)
  {
    UpsertAllAt(t, objs, RowsAt(t, id, v), u);
    hide UpsertAll, ById, Filter, UniqueIds;
  }

  lemma SameRows(p: Table, q: Table)
    requires forall u :: Get(p, u) == Get(q, u)
    ensures p == q
  {
    assert forall u | u in p :: Get(p, u).Some? && Get(p, u) == Get(q, u);
    assert forall u | u in q :: Get(q, u).Some? && Get(p, u) == Get(q, u);
  }

  /** And so they leave every row as the remote has it, column by column. */
  lemma GeoPassReconciles(t: Table, id: MapId, v: Version, objs: seq<Geo>)
    requires UniqueIds(objs) && GeoOk(t)
    ensures Reconciled(t, id, v, objs, GeoPass(t, id, v, objs))
  {
    hide GeoPass, SyncVersion, Reconciled;
    GeoPassIsSyncVersion(t, id, v, objs);
    SyncVersionReconciles(t, id, v, objs);
  }

  lemma {:induction false} GeoPassAllIsSyncAll(t: Table, id: MapId, vs: seq<Version>, geo: Listing)
    requires forall v | v in vs :: UniqueIds(geo(v))
    requires GeoOk(t)
    ensures GeoPassAll(t, id, vs, geo) == SyncAll(t, id, vs, geo)
    ensures GeoOk(SyncAll(t, id, vs, geo))
  {
    if vs != [] {
      var n := |vs| - 1;
      assert vs[n] in vs && forall v | v in vs[..n] :: v in vs;
      GeoPassAllIsSyncAll(t, id, vs[..n], geo);
      GeoPassIsSyncVersion(SyncAll(t, id, vs[..n], geo), id, vs[n], geo(vs[n]));
      SyncVersionKeepsKeys(SyncAll(t, id, vs[..n], geo), id, vs[n], geo(vs[n]));
    }
  }

  // ----- The whole pass -----

  function OldCurrent(s: Local): string { if s.row.Some? then s.row.value.current else "" }

  function NewCurrent(s: Local, remote: RemoteMap, recorded: set<Version>): string {
    if remote.current != "" && remote.current in recorded then remote.current else OldCurrent(s)
  }

  /** s' is the local state after an error-free pass from s. */
  ghost predicate PassDone(id: MapId, syncGeo: bool, s: Local, remote: RemoteMap, s': Local) {
    && s'.row == Some(Row(remote.name, remote.visibleToAll, remote.anonymousAllowed,
                          NewCurrent(s, remote, s'.recorded.Keys)))
    && Pulled(s.recorded, s'.recorded, remote.versions)
    && s'.aliases == AliasPass(s.aliases, remote.aliases, s'.recorded.Keys)
    && s'.geo == (if syncGeo then GeoPassAll(s.geo, id, Names(remote.versions), remote.geo) else s.geo)
    && (forall v | v in s.dirs && v !in s'.recorded :: v in s'.dirs && s'.dirs[v] == s.dirs[v])
    && (forall v | v in s.recorded && v in s.dirs :: v in s'.dirs && s'.dirs[v] == s.dirs[v])
  }

  /** The remote's answers respect its primary and foreign keys. */
  ghost predicate Coherent(id: MapId, remote: RemoteMap) {
    && DistinctAliases(remote.aliases)
    && WellFormed(id, Names(remote.versions), remote.geo)
    && forall v | v in Names(remote.versions) :: UniqueIds(remote.geo(v))
  }

  ghost predicate SameGeo(id: MapId, s: Local, remote: RemoteMap) {
    var vs := Names(remote.versions);
    forall i | 0 <= i < |vs| :: GeoEqual(s.geo, id, vs[i], remote.geo(vs[i]))
  }

  /** The local map mirrors the remote's answers. */
  ghost predicate Mirrored(id: MapId, syncGeo: bool, s: Local, remote: RemoteMap) {
    && s.row == Some(Row(remote.name, remote.visibleToAll, remote.anonymousAllowed, remote.current))
    && (forall x | x in remote.versions :: x.version in s.recorded)
    && s.aliases == ByAlias(remote.aliases)
    && (syncGeo ==> SameGeo(id, s, remote))
  }

  predicate ListedOrRecorded(s: Local, remote: RemoteMap, v: Version) {
    v in s.recorded || v in Names(remote.versions)
  }

  /** What has to hold before the pass: alias targets and the current version are listed (or already
      here), a remote without a current version never had one here, and geo rows are in place. */
  ghost predicate Mirrorable(id: MapId, syncGeo: bool, s: Local, remote: RemoteMap) {
    && (forall a | a in remote.aliases :: ListedOrRecorded(s, remote, a.version))
    && (if remote.current == "" then OldCurrent(s) == "" else ListedOrRecorded(s, remote, remote.current))
    && (syncGeo ==> AllHome(s.geo, id, Names(remote.versions), remote.geo))
  }

  lemma RecordedAfter(s: Local, remote: RemoteMap, r': map<Version, VersionRecord>)
    requires Pulled(s.recorded, r', remote.versions)
    ensures forall v :: v in r' <==> ListedOrRecorded(s, remote, v)
  {
    var vs := remote.versions;
    forall v ensures v in r' <==> ListedOrRecorded(s, remote, v) {
      if v in Names(vs) {
        var i :| 0 <= i < |vs| && Names(vs)[i] == v;
        assert vs[i] in vs;
      }
      if v in r' && v !in s.recorded {
        var i :| 0 <= i < |vs| && vs[i] == r'[v];
        assert Names(vs)[i] == v;
      }
    }
  }

  /** An error-free pass against an unchanging remote produces a mirror of it if and only if the
      remote's aliases and current version point at versions it lists (or the mirror has) and no geo
      row is in the way. */
  lemma PassMirrorsIff(arch: M.Archives, id: MapId, syncGeo: bool, s: Local, remote: RemoteMap, s': Local)
    requires Sound(arch, s) && Coherent(id, remote) && PassDone(id, syncGeo, s, remote, s')
    ensures Mirrored(id, syncGeo, s', remote) <==> Mirrorable(id, syncGeo, s, remote)
  {
    hide WellFormed, AliasPass, GeoPassAll, SyncAll, ByAlias, AllHome, GeoEqual, M.Complete;
    RecordedAfter(s, remote, s'.recorded);
    AliasesConvergeIff(s.aliases, remote.aliases, s'.recorded.Keys);
    if syncGeo {
      GeoPassAllIsSyncAll(s.geo, id, Names(remote.versions), remote.geo);
      GeoConvergesIffAllHome(s.geo, id, Names(remote.versions), remote.geo);
    }
    assert OldCurrent(s) == "" || ListedOrRecorded(s, remote, OldCurrent(s));
  }

  /** An error-free pass makes every listed version's geo objects the remote's, in every column, if and
      only if no row was in the way and no two objects shared a date but differed. */
  lemma PassCopiesContentsIff(arch: M.Archives, id: MapId, s: Local, remote: RemoteMap, s': Local)
    requires Sound(arch, s) && Coherent(id, remote) && PassDone(id, true, s, remote, s')
    ensures (forall v | v in Names(remote.versions) :: SameObjects(s'.geo, id, v, remote.geo(v)))
            <==> AllHome(s.geo, id, Names(remote.versions), remote.geo) && DatesTell(s.geo, id, Names(remote.versions), remote.geo)
  {
    hide WellFormed, AliasPass, GeoPassAll, SyncAll, ByAlias, AllHome, DatesTell, SameObjects, M.Complete;
    var vs := Names(remote.versions);
    GeoPassAllIsSyncAll(s.geo, id, vs, remote.geo);
    ContentsConvergeIff(s.geo, id, vs, remote.geo);
    assert forall i | 0 <= i < |vs| :: vs[i] in vs;
  }

  /** Against a remote it mirrors, a second pass computes empty diffs. */
  lemma SecondPassFindsNothing(arch: M.Archives, id: MapId, s: Local, remote: RemoteMap, has: map<Version, bool>)
    requires Sound(arch, s) && Coherent(id, remote) && Mirrored(id, true, s, remote)
    requires forall x | x in remote.versions :: x.version in has && has[x.version] == (x.version in s.recorded)
    ensures Filter(remote.versions, NotLocal(has)) == []
    ensures Filter(remote.aliases, AliasDiffers(s.aliases)) == [] && s.aliases.Keys - ByAlias(remote.aliases).Keys == {}
    ensures forall v | v in Names(remote.versions) ::
              && Filter(remote.geo(v), GeoDiffers(RowsAt(s.geo, id, v))) == []
              && RowsAt(s.geo, id, v).Keys - ById(remote.geo(v)).Keys == {}
  {
    hide WellFormed, M.Complete, GeoEqual, UniqueIds;
    FilterNothing(remote.versions, NotLocal(has));
    forall r | r in remote.aliases ensures !AliasDiffers(s.aliases)(r) {
      AliasOf(remote.aliases, r);
    }
    FilterNothing(remote.aliases, AliasDiffers(s.aliases));
    var vs := Names(remote.versions);
    forall v | v in vs
      ensures Filter(remote.geo(v), GeoDiffers(RowsAt(s.geo, id, v))) == []
      ensures RowsAt(s.geo, id, v).Keys - ById(remote.geo(v)).Keys == {}
    {
      var i :| 0 <= i < |vs| && vs[i] == v;
      assert GeoEqual(s.geo, id, vs[i], remote.geo(vs[i]));
      NoGeoDiff(s.geo, id, v, remote.geo(v));
    }
  }

  lemma AliasOf(s: seq<AliasRecord>, r: AliasRecord)
    requires DistinctAliases(s) && r in s
    ensures r.alias in ByAlias(s) && ByAlias(s)[r.alias] == r.version
  {
    assert AliasRecord(r.alias, ByAlias(s)[r.alias]) in s;
  }

  lemma NoGeoDiff(t: Table, id: MapId, v: Version, objs: seq<Geo>)
    requires GeoEqual(t, id, v, objs) && UniqueIds(objs)
    ensures Filter(objs, GeoDiffers(RowsAt(t, id, v))) == []
    ensures RowsAt(t, id, v).Keys - ById(objs).Keys == {}
  {
    forall g | g in objs ensures !GeoDiffers(RowsAt(t, id, v))(g) {
      assert ById(objs)[g.uuid] == g;
      assert RowAt(Get(t, g.uuid), id, v);
    }
    FilterNothing(objs, GeoDiffers(RowsAt(t, id, v)));
    forall u | u in RowsAt(t, id, v) ensures u in ById(objs) {
      assert RowAt(Get(t, u), id, v);
    }
  }

  lemma {:induction false} IdleGeo(t: Table, id: MapId, vs: seq<Version>, geo: Listing)
    requires forall v | v in vs :: GeoEqual(t, id, v, geo(v)) && UniqueIds(geo(v))
    ensures GeoPassAll(t, id, vs, geo) == t
  {
    hide GeoEqual, UniqueIds;
    if vs != [] {
      var n := |vs| - 1;
      assert vs[n] in vs && forall v | v in vs[..n] :: v in vs;
      IdleGeo(t, id, vs[..n], geo);
      NoGeoDiff(t, id, vs[n], geo(vs[n]));
    }
  }

  /** ... and leaves every row as it is. */
  lemma SecondPassChangesNothing(arch: M.Archives, id: MapId, syncGeo: bool, s: Local, remote: RemoteMap, s': Local)
    requires Sound(arch, s) && Coherent(id, remote) && Mirrored(id, syncGeo, s, remote)
    requires PassDone(id, syncGeo, s, remote, s')
    ensures s'.row == s.row && s'.recorded == s.recorded && s'.aliases == s.aliases && s'.geo == s.geo
    ensures forall v | v in s.dirs :: v in s'.dirs && s'.dirs[v] == s.dirs[v]
  {
    hide WellFormed, M.Complete, GeoEqual, UniqueIds;
    assert s'.recorded.Keys == s.recorded.Keys;
    forall r | r in remote.aliases ensures !AliasDiffers(s.aliases)(r) {
      AliasOf(remote.aliases, r);
    }
    FilterNothing(remote.aliases, AliasDiffers(s.aliases));
    if syncGeo {
      var vs := Names(remote.versions);
      forall v | v in vs ensures GeoEqual(s.geo, id, v, remote.geo(v)) {
        var i :| 0 <= i < |vs| && vs[i] == v;
        assert GeoEqual(s.geo, id, vs[i], remote.geo(vs[i]));
      }
      IdleGeo(s.geo, id, vs, remote.geo);
    }
  }
}
