/** One sync pass over one map, as the program runs it: loops over the computed diffs that change the
    tables and the version directories step by step. Every remote, table and disk call may fail. */
module SyncMap {
  import opened GeoMirror
  import opened Lists
  import opened Paths
  import opened SyncDiff
  import opened SyncPass
  import opened Wrappers
  import A = Archive
  import I = TileIndex
  import M = MirrorPull

  /** Archives that extract, and geo objects filed under the version they are listed for: a pass over
      such a remote fails only if one of its calls does. */
  ghost predicate Servable(archives: M.Archives, id: MapId, remote: RemoteMap) {
    && (forall x | x in remote.versions :: M.Extraction(archives, x.version).Ok?)
    && (forall v, g | v in Names(remote.versions) && g in remote.geo(v) :: At(g, id, v))
  }

  /** What a move into place that fails leaves of v's directory: all of it, some remains, or nothing. */
  ghost predicate HalfMoved(v: Version, dirs: map<Version, A.Tree>, dirs': map<Version, A.Tree>) {
    dirs' == dirs || dirs' == dirs - {v} || (v in dirs && v in dirs' && M.IsPart(dirs'[v], dirs[v]) && dirs' == dirs[v := dirs'[v]])
  }

  ghost predicate Moved(archives: M.Archives, v: Version, dirs: map<Version, A.Tree>, dirs': map<Version, A.Tree>) {
    v in dirs' && M.Complete(archives, v, dirs'[v]) && dirs' == dirs[v := dirs'[v]]
  }

  /** What pullVersion may do: once it has the archive, the directory may be half moved, or moved and not
      recorded. */
  ghost predicate PullOutcome(archives: M.Archives, v: VersionRecord, recorded: map<Version, VersionRecord>,
                              dirs: map<Version, A.Tree>, ok: bool, recorded': map<Version, VersionRecord>,
                              dirs': map<Version, A.Tree>) {
    if v.version in recorded then recorded' == recorded && dirs' == dirs
    else if ok then recorded' == recorded[v.version := v] && Moved(archives, v.version, dirs, dirs')
    else
      && recorded' == recorded
      && (|| dirs' == dirs
          || (M.Extraction(archives, v.version).Ok? && HalfMoved(v.version, dirs, dirs'))
          || Moved(archives, v.version, dirs, dirs'))
  }

  class Mirror {
    const id: MapId
    const archives: M.Archives
    /** The versions of other maps, which a geo_objects row may refer to as well. */
    const otherVersions: set<(MapId, Version)>

    var row: Option<Row>
    var recorded: map<Version, VersionRecord>
    var aliases: map<string, Version>
    var geo: Table
    var dirs: map<Version, A.Tree>

    /** How many more calls succeed before one fails. */
    var left: nat

    constructor (id: MapId, archives: M.Archives, otherVersions: set<(MapId, Version)>, geo: Table, left: nat)
      requires GeoOk(geo)
      ensures this.id == id && this.archives == archives && this.otherVersions == otherVersions && this.left == left
      ensures State() == Local(None, map[], map[], geo, map[]) && Sound(archives, State())
    {
      this.id, this.archives, this.otherVersions, this.geo, this.left := id, archives, otherVersions, geo, left;
      row, recorded, aliases, dirs := None, map[], map[], map[];
    }

    ghost function State(): Local
      reads this
    {
      Local(row, recorded, aliases, geo, dirs)
    }

    /** One call to the remote, the database or the file system. */
    method Attempt() returns (ok: bool)
      modifies this`left
      ensures ok == (old(left) > 0)
      ensures left == if ok then old(left) - 1 else 0
    {
      ok := left > 0;
      if ok { left := left - 1; }
    }

    method UpsertMap(remote: RemoteMap) returns (ok: bool)
      modifies this`row, this`left
      ensures ok ==> row == Some(Row(remote.name, remote.visibleToAll, remote.anonymousAllowed, OldCurrent(old(State()))))
      ensures !ok ==> row == old(row) && left == 0
    {
      ok := Attempt();
      if ok {
        var current := if row.Some? then row.value.current else "";
        row := Some(Row(remote.name, remote.visibleToAll, remote.anonymousAllowed, current));
      }
    }

    /** localVersionSet */
    method LocalVersions(versions: seq<VersionRecord>) returns (ok: bool, has: map<Version, bool>)
      modifies this`left
      ensures ok ==> forall x | x in versions :: x.version in has && has[x.version] == (x.version in recorded)
      ensures !ok ==> left == 0
    {
      has := map[];
      for i := 0 to |versions|
        invariant forall j | 0 <= j < i :: versions[j].version in has
        invariant forall v | v in has :: has[v] == (v in recorded)
      {
        ok := Attempt();
        if !ok { return; }
        has := has[versions[i].version := versions[i].version in recorded];
      }
      ok := true;
    }

    /** pullVersion up to the tile index: download, extract, index. */
    method Stage(v: Version) returns (ok: bool, staging: A.Tree)
      modifies this`left
      ensures ok ==> M.Complete(archives, v, staging) && M.Extraction(archives, v).Ok?
      ensures !ok ==> left == 0 || M.Extraction(archives, v).Err?
    {
      hide I.WithIndex, A.Extract;
      staging := A.EMPTY_TREE;
      ok := Attempt();
      if !ok { return; }
      var extracted := A.ExtractInto(archives(v).format, [], archives(v).entries);
      ok := Attempt();
      if !ok { return; }
      if extracted.Err? { return false, staging; }
      ok := Attempt();
      if !ok { return; }
      staging := I.WriteTileIndex(extracted.value);
    }

    /** The rest of pullVersion on disk: clear an orphaned directory, rename the staged one. */
    method MoveIntoPlace(v: Version, staging: A.Tree) returns (ok: bool)
      modifies this`dirs, this`left
      ensures ok ==> dirs == old(dirs)[v := staging]
      ensures !ok ==> left == 0 && HalfMoved(v, old(dirs), dirs)
    {
      ok := Attempt();
      if !ok {
        var files: set<Path>, subdirs: set<Path> := *, *;
        if v in dirs { dirs := dirs[v := A.Tree(dirs[v].dirs - subdirs, dirs[v].files - files)]; }
        return;
      }
      dirs := dirs - {v};
      ok := Attempt();
      if ok { dirs := dirs[v := staging]; }
    }

    /** pullVersion: the archive is extracted and indexed beside the versions, then whatever stands in
        the way is removed, then it is renamed into place, and only then is the version recorded. */
    method PullVersion(v: VersionRecord) returns (ok: bool)
      requires DirsOk(archives, recorded, dirs)
      modifies this`recorded, this`dirs, this`left
      ensures DirsOk(archives, recorded, dirs)
      ensures PullOutcome(archives, v, old(recorded), old(dirs), ok, recorded, dirs)
      ensures !ok ==> left == 0 || M.Extraction(archives, v.version).Err?
      ensures forall w | w in old(dirs) && (w != v.version || w in old(recorded)) :: w in dirs && dirs[w] == old(dirs)[w]
    {
      hide M.Complete, M.Extraction;
      ok := Attempt();
      if !ok { return; }
      if v.version in recorded { return; }
      var staging;
      ok, staging := Stage(v.version);
      if !ok { return; }
      ok := MoveIntoPlace(v.version, staging);
      assert forall w | w in old(dirs) && w != v.version :: w in old(dirs) - {v.version} && w in dirs - {v.version};
      if !ok { return; }
      ok := Attempt();
      if !ok { return; }
      recorded := recorded[v.version := v];
    }

    /** The loop of syncMap over the versions to pull. */
    method PullAll(toPull: seq<VersionRecord>) returns (ok: bool)
      requires DirsOk(archives, recorded, dirs)
      modifies this`recorded, this`dirs, this`left
      ensures DirsOk(archives, recorded, dirs)
      ensures ok ==> recorded == RecordAll(old(recorded), toPull)
      ensures exists k :: 0 <= k <= |toPull| && recorded == RecordAll(old(recorded), toPull[..k])
      ensures !ok ==> left == 0 || exists x :: x in toPull && M.Extraction(archives, x.version).Err?
      ensures forall w | w in old(dirs) && (w in old(recorded) || w !in Names(toPull)) :: w in dirs && dirs[w] == old(dirs)[w]
    {
      hide DirsOk;
      for i := 0 to |toPull|
        invariant DirsOk(archives, recorded, dirs)
        invariant recorded == RecordAll(old(recorded), toPull[..i])
        invariant forall w | w in old(dirs) && (w in old(recorded) || w !in Names(toPull)) :: w in dirs && dirs[w] == old(dirs)[w]
      {
        assert toPull[..i + 1][..i] == toPull[..i];
        assert Names(toPull)[i] in Names(toPull);
        ok := PullVersion(toPull[i]);
        if !ok {
          assert toPull[i] in toPull;
          return;
        }
      }
      assert toPull[..|toPull|] == toPull;
      ok := true;
    }

    method ListAliases() returns (s: seq<AliasRecord>)
      ensures ByAlias(s) == aliases
    {
      hide ByAlias;
      s := [];
      var names := aliases.Keys;
      NoAliases();
      assert aliases - aliases.Keys == map[];
      while names != {}
        invariant names <= aliases.Keys
        invariant ByAlias(s) == aliases - names
        decreases |names|
      {
        var n :| n in names;
        OneMoreAlias(s, AliasRecord(n, aliases[n]));
        s := s + [AliasRecord(n, aliases[n])];
        assert aliases - (names - {n}) == (aliases - names)[n := aliases[n]];
        names := names - {n};
      }
      assert aliases - {} == aliases;
    }

    method SetAliases(toSet: seq<AliasRecord>) returns (ok: bool)
      requires AliasesOk(aliases, recorded)
      modifies this`aliases, this`left
      ensures AliasesOk(aliases, recorded)
      ensures ok ==> aliases == SetAll(old(aliases), toSet, recorded.Keys)
      ensures !ok ==> left == 0
    {
      for i := 0 to |toSet|
        invariant AliasesOk(aliases, recorded)
        invariant aliases == SetAll(old(aliases), toSet[..i], recorded.Keys)
      {
        assert toSet[..i + 1][..i] == toSet[..i];
        ok := Attempt();
        if !ok { return; }
        if toSet[i].version in recorded {
          ok := Attempt();
          if !ok { return; }
          aliases := aliases[toSet[i].alias := toSet[i].version];
        }
      }
      assert toSet[..|toSet|] == toSet;
      ok := true;
    }

    method DeleteAliases(toDelete: seq<AliasRecord>) returns (ok: bool)
      requires AliasesOk(aliases, recorded)
      modifies this`aliases, this`left
      ensures AliasesOk(aliases, recorded)
      ensures ok ==> aliases == old(aliases) - set j | 0 <= j < |toDelete| :: toDelete[j].alias
      ensures !ok ==> left == 0
    {
      for i := 0 to |toDelete|
        invariant AliasesOk(aliases, recorded)
        invariant aliases == old(aliases) - set j | 0 <= j < i :: toDelete[j].alias
      {
        ok := Attempt();
        if !ok { return; }
        aliases := aliases - {toDelete[i].alias};
      }
      ok := true;
    }

    /** reconcileMapAliases: an alias whose target is not recorded yet is left for a later pass. */
    method ReconcileMapAliases(remote: seq<AliasRecord>) returns (ok: bool)
      requires AliasesOk(aliases, recorded)
      modifies this`aliases, this`left
      ensures AliasesOk(aliases, recorded)
      ensures ok ==> aliases == AliasPass(old(aliases), remote, recorded.Keys)
      ensures !ok ==> left == 0
    {
      hide ByAlias, Filter, SetAll, AliasesOk;
      ok := Attempt();
      if !ok { return; }
      ok := Attempt();
      if !ok { return; }
      var local := ListAliases();
      var toSet, toDelete := ReconcileAliases(local, remote);
      ok := SetAliases(toSet);
      if !ok { return; }
      GoneNames(local, remote, toDelete);
      ok := DeleteAliases(toDelete);
    }

    method ListGeoObjects(v: Version) returns (s: seq<Geo>)
      requires GeoOk(geo)
      ensures ById(s) == RowsAt(geo, id, v)
    {
      hide ById;
      s := ListRows(RowsAt(geo, id, v));
    }

    /** UpsertSyncedGeoObject, whose row must refer to a version that exists. */
    method UpsertGeo(g: Geo) returns (ok: bool)
      modifies this`geo, this`left
      ensures ok ==> geo == old(geo)[g.uuid := Upsert(Get(old(geo), g.uuid), g)]
      ensures !ok ==> geo == old(geo) && (left == 0 || !(g.mapId == id && g.version in recorded))
    {
      ok := Attempt();
      if !ok { return; }
      if g.uuid in geo {
        geo := geo[g.uuid := geo[g.uuid].(updatedAt := g.updatedAt, fields := g.fields)];
      } else if (g.mapId == id && g.version in recorded) || (g.mapId, g.version) in otherVersions {
        geo := geo[g.uuid := g];
      } else {
        ok := false;
      }
    }

    method UpsertObjects(toUpsert: seq<Geo>) returns (ok: bool)
      requires GeoOk(geo)
      modifies this`geo, this`left
      ensures GeoOk(geo)
      ensures ok ==> geo == UpsertAll(old(geo), toUpsert)
      ensures !ok ==> left == 0 || exists g :: g in toUpsert && !(g.mapId == id && g.version in recorded)
    {
      for i := 0 to |toUpsert|
        invariant GeoOk(geo)
        invariant geo == UpsertAll(old(geo), toUpsert[..i])
      {
        assert toUpsert[..i + 1][..i] == toUpsert[..i];
        ok := UpsertGeo(toUpsert[i]);
        if !ok {
          assert toUpsert[i] in toUpsert;
          return;
        }
      }
      assert toUpsert[..|toUpsert|] == toUpsert;
      ok := true;
    }

    /** The deletions name rows of this map and version; one that is gone already is no error. */
    method DeleteObjects(v: Version, toDelete: seq<Geo>) returns (ok: bool)
      requires GeoOk(geo)
      modifies this`geo, this`left
      ensures GeoOk(geo)
      ensures ok ==> geo == Without(old(geo), id, v, set j | 0 <= j < |toDelete| :: toDelete[j].uuid)
      ensures !ok ==> left == 0
    {
      for i := 0 to |toDelete|
        invariant GeoOk(geo)
        invariant geo == Without(old(geo), id, v, set j | 0 <= j < i :: toDelete[j].uuid)
      {
        ok := Attempt();
        if !ok { return; }
        var u := toDelete[i].uuid;
        if u in geo && At(geo[u], id, v) { geo := geo - {u}; }
      }
      ok := true;
    }

    /** syncGeoObjectsForVersion */
    method SyncGeoObjectsForVersion(v: Version, objs: seq<Geo>) returns (ok: bool)
      requires GeoOk(geo)
      modifies this`geo, this`left
      ensures GeoOk(geo)
      ensures ok ==> geo == GeoPass(old(geo), id, v, objs)
      ensures ok && UniqueIds(objs) ==> Reconciled(old(geo), id, v, objs, geo)
      ensures !ok ==> left == 0 || v !in recorded || exists g :: g in objs && !At(g, id, v)
    {
      hide ById, Filter, UpsertAll, GeoOk, Reconciled, UniqueIds, GeoPass, Without, RowsAt, GeoDiffers, GeoGone;
      if UniqueIds(objs) { GeoPassReconciles(geo, id, v, objs); }
      ok := Attempt();
      if !ok { return; }
      ok := Attempt();
      if !ok { return; }
      var local := ListGeoObjects(v);
      var toUpsert, toDelete := ReconcileGeoObjects(local, objs);
      ok := UpsertObjects(toUpsert);
      if !ok { return; }
      LoopsArePass(old(geo), id, v, objs, local, toUpsert, toDelete);
      ok := DeleteObjects(v, toDelete);
    }

    /** syncMapGeoObjects */
    method SyncMapGeoObjects(enabled: bool, versions: seq<VersionRecord>, listing: Listing) returns (ok: bool)
      requires GeoOk(geo)
      modifies this`geo, this`left
      ensures GeoOk(geo)
      ensures ok ==> geo == if enabled then GeoPassAll(old(geo), id, Names(versions), listing) else old(geo)
      ensures !ok ==> left == 0 || exists v :: v in Names(versions) && (v !in recorded || exists g :: g in listing(v) && !At(g, id, v))
    {
      hide GeoOk, GeoPass;
      ok := true;
      if !enabled { return; }
      for i := 0 to |versions|
        invariant GeoOk(geo)
        invariant geo == GeoPassAll(old(geo), id, Names(versions[..i]), listing)
      {
        assert Names(versions[..i + 1])[..i] == Names(versions[..i]);
        ok := SyncGeoObjectsForVersion(versions[i].version, listing(versions[i].version));
        if !ok {
          assert Names(versions)[i] in Names(versions);
          return;
        }
      }
      assert versions[..|versions|] == versions;
      ok := true;
    }

    /** SetSyncedCurrentVersion: nothing happens, and nothing fails, unless the version is recorded. */
    method SetCurrent(version: Version) returns (ok: bool)
      requires row.Some?
      modifies this`row, this`left
      ensures ok ==> row == Some(old(row).value.(current := if version in recorded then version else old(row).value.current))
      ensures !ok ==> row == old(row) && left == 0
    {
      ok := Attempt();
      if ok && version in recorded { row := Some(row.value.(current := version)); }
    }

    /** syncMap's part about versions: list, compare, pull. */
    method SyncVersions(versions: seq<VersionRecord>) returns (ok: bool)
      requires DirsOk(archives, recorded, dirs)
      modifies this`recorded, this`dirs, this`left
      ensures DirsOk(archives, recorded, dirs) && CameOldestFirst(old(recorded), recorded, versions)
      ensures ok ==> Pulled(old(recorded), recorded, versions)
      ensures ok ==> forall w | w in old(dirs) && (w in old(recorded) || w !in recorded) :: w in dirs && dirs[w] == old(dirs)[w]
      ensures !ok ==> left == 0 || exists x :: x in versions && M.Extraction(archives, x.version).Err?
    {
      hide DirsOk, Filter, M.Extraction, RecordAll, CameOldestFirst, OldestFirst, Pulled;
      NothingCame(recorded, versions);
      ok := Attempt();
      if !ok { return; }
      var has;
      ok, has := LocalVersions(versions);
      if !ok { return; }
      var toPull := VersionsToPull(has, versions);
      SameElements(toPull, Filter(versions, NotLocal(has)));
      ok := PullAll(toPull);
      PulledInOrder(old(recorded), versions, toPull, recorded);
      if ok { NothingIsMissing(old(recorded), versions, toPull, recorded); }
    }

    /** syncMap: if it returns without error, everything the pass could bring over is there; whether or
        not it does, every recorded version is complete, every alias and the current version point at
        recorded versions, and the versions that came were listed and came oldest first. It fails only
        because a call failed or the remote served nonsense. */
    method SyncMap(syncGeo: bool, remote: RemoteMap) returns (ok: bool)
      requires Sound(archives, State())
      modifies this
      ensures Sound(archives, State())
      ensures CameOldestFirst(old(recorded), recorded, remote.versions)
      ensures ok ==> PassDone(id, syncGeo, old(State()), remote, State())
      ensures !ok && Servable(archives, id, remote) ==> left == 0
    {
      hide DirsOk, GeoOk, Filter, M.Extraction, AliasPass, GeoPassAll, CameOldestFirst, AliasesOk, Pulled;
      NothingCame(recorded, remote.versions);
      ok := UpsertMap(remote);
      if !ok { return; }
      ok := SyncVersions(remote.versions);
      OldOnesStay(aliases, old(recorded), recorded, remote.versions);
      if !ok { return; }
      ok := ReconcileMapAliases(remote.aliases);
      if !ok { return; }
      ListedAreRecorded(old(recorded), remote.versions, recorded);
      ok := SyncMapGeoObjects(syncGeo, remote.versions, remote.geo);
      if !ok { return; }
      if remote.current == "" { return; }
      ok := SetCurrent(remote.current);
    }
  }

  /** The rows of a query, in some order. */
  method ListRows(rows: map<Uuid, Geo>) returns (s: seq<Geo>)
    requires forall u | u in rows :: rows[u].uuid == u
    ensures ById(s) == rows
  {
    hide ById;
    s := [];
    var ids := rows.Keys;
    NoObjects();
    assert rows - rows.Keys == map[];
    while ids != {}
      invariant ids <= rows.Keys
      invariant ById(s) == rows - ids
      decreases |ids|
    {
      var u :| u in ids;
      OneMoreObject(s, rows[u]);
      s := s + [rows[u]];
      OneMoreRow(rows, ids, u);
      ids := ids - {u};
    }
    assert rows - {} == rows;
  }

  lemma OneMoreRow(rows: map<Uuid, Geo>, ids: set<Uuid>, u: Uuid)
    requires u in ids && u in rows
    ensures rows - (ids - {u}) == (rows - ids)[u := rows[u]]
  {
  }

  lemma NoAliases()
    ensures ByAlias([]) == map[]
  {
  }

  lemma OneMoreAlias(s: seq<AliasRecord>, a: AliasRecord)
    ensures ByAlias(s + [a]) == ByAlias(s)[a.alias := a.version]
  {
    assert (s + [a])[..|s|] == s;
  }

  lemma GoneNames(local: seq<AliasRecord>, remote: seq<AliasRecord>, toDelete: seq<AliasRecord>)
    requires toDelete == Filter(local, AliasGone(ByAlias(remote)))
    ensures (set j | 0 <= j < |toDelete| :: toDelete[j].alias) == ByAlias(local).Keys - ByAlias(remote).Keys
  {
    forall n | n in ByAlias(local) && n !in ByAlias(remote) ensures exists j :: 0 <= j < |toDelete| && toDelete[j].alias == n {
      assert AliasRecord(n, ByAlias(local)[n]) in toDelete;
    }
    forall j | 0 <= j < |toDelete| ensures toDelete[j].alias in ByAlias(local).Keys - ByAlias(remote).Keys {
      assert toDelete[j] in toDelete;
    }
  }

  lemma GoneIds(local: seq<Geo>, objs: seq<Geo>, toDelete: seq<Geo>)
    requires toDelete == Filter(local, GeoGone(ById(objs).Keys))
    ensures (set j | 0 <= j < |toDelete| :: toDelete[j].uuid) == ById(local).Keys - ById(objs).Keys
  {
    forall u | u in ById(local) && u !in ById(objs) ensures exists j :: 0 <= j < |toDelete| && toDelete[j].uuid == u {
      assert ById(local)[u] in toDelete;
    }
    forall j | 0 <= j < |toDelete| ensures toDelete[j].uuid in ById(local).Keys - ById(objs).Keys {
      assert toDelete[j] in toDelete;
    }
  }

  /** Upserts of the one diff and deletions of the other, one after another, are the pass. */
  lemma LoopsArePass(t: Table, id: MapId, v: Version, objs: seq<Geo>, local: seq<Geo>, toUpsert: seq<Geo>, toDelete: seq<Geo>)
    requires ById(local) == RowsAt(t, id, v)
    requires toUpsert == Filter(objs, GeoDiffers(ById(local))) && toDelete == Filter(local, GeoGone(ById(objs).Keys))
    ensures Without(UpsertAll(t, toUpsert), id, v, set j | 0 <= j < |toDelete| :: toDelete[j].uuid) == GeoPass(t, id, v, objs)
    ensures forall g | g in toUpsert :: g in objs
  {
    hide ById, UpsertAll;
    GoneIds(local, objs, toDelete);
    var gone, written := RowsAt(t, id, v).Keys - ById(objs).Keys, UpsertAll(t, toUpsert);
    UpsertsLeaveOthers(t, toUpsert, gone);
    assert forall u | u in gone :: Get(written, u) == Get(t, u);
    assert Without(written, id, v, gone) == written - gone;
  }

  /** Upserts touch no row but those of the objects written. */
  lemma {:induction false} UpsertsLeaveOthers(t: Table, s: seq<Geo>, others: set<Uuid>)
    requires forall g | g in s :: g.uuid !in others
    ensures forall u | u in others :: Get(UpsertAll(t, s), u) == Get(t, u)
  {
    if s != [] {
      assert s[|s| - 1] in s && forall g | g in s[..|s| - 1] :: g in s;
      UpsertsLeaveOthers(t, s[..|s| - 1], others);
    }
  }

  lemma SameElements(s: seq<VersionRecord>, t: seq<VersionRecord>)
    requires multiset(s) == multiset(t)
    ensures forall x :: x in s <==> x in t
  {
    assert forall x :: x in s <==> x in multiset(s);
    assert forall x :: x in t <==> x in multiset(t);
  }

  lemma ListedAreRecorded(r: map<Version, VersionRecord>, vs: seq<VersionRecord>, r': map<Version, VersionRecord>)
    requires Pulled(r, r', vs)
    ensures forall v | v in Names(vs) :: v in r'
  {
    forall v | v in Names(vs) ensures v in r' {
      var i :| 0 <= i < |vs| && Names(vs)[i] == v;
      assert vs[i] in vs;
    }
  }

  /** r' is r and some of the listed versions, none of them before every strictly older one. */
  ghost predicate CameOldestFirst(r: map<Version, VersionRecord>, r': map<Version, VersionRecord>, vs: seq<VersionRecord>) {
    && (forall v | v in r :: v in r' && r'[v] == r[v])
    && (forall v | v in r' && v !in r :: r'[v] in vs && r'[v].version == v)
    && (forall v, x | v in r' && v !in r && x in vs && x.createdAt < r'[v].createdAt :: x.version in r')
  }

  lemma NothingCame(r: map<Version, VersionRecord>, vs: seq<VersionRecord>)
    ensures CameOldestFirst(r, r, vs)
  {
  }

  lemma OldOnesStay(aliases: map<string, Version>, r: map<Version, VersionRecord>, r': map<Version, VersionRecord>,
                    vs: seq<VersionRecord>)
    requires AliasesOk(aliases, r) && CameOldestFirst(r, r', vs)
    ensures AliasesOk(aliases, r') && forall v | v in r :: v in r'
  {
  }

  /** However far the pulls get, they get there in order. */
  lemma PulledInOrder(r: map<Version, VersionRecord>, vs: seq<VersionRecord>, toPull: seq<VersionRecord>, r': map<Version, VersionRecord>)
    requires OldestFirst(toPull) && forall x :: x in toPull <==> x in vs && x.version !in r
    requires exists k :: 0 <= k <= |toPull| && r' == RecordAll(r, toPull[..k])
    ensures CameOldestFirst(r, r', vs)
  {
    var k :| 0 <= k <= |toPull| && r' == RecordAll(r, toPull[..k]);
    forall v | v in r' && v !in r ensures r'[v] in vs && r'[v].version == v {
      assert r'[v] in toPull[..k];
    }
    forall v, x | v in r' && v !in r && x in vs && x.createdAt < r'[v].createdAt ensures x.version in r' {
      if x.version !in r { OlderCameToo(toPull, k, x, r'[v]); }
    }
  }

  lemma OlderCameToo(toPull: seq<VersionRecord>, k: nat, x: VersionRecord, y: VersionRecord)
    requires OldestFirst(toPull) && k <= |toPull| && x in toPull && y in toPull[..k] && x.createdAt < y.createdAt
    ensures x in toPull[..k]
  {
    var i :| 0 <= i < |toPull| && toPull[i] == x;
    var j :| 0 <= j < k && toPull[..k][j] == y;
    assert toPull[j] == y;
    assert i < k;
    assert toPull[..k][i] == x;
  }

  /** Pulling what was not local leaves a row for every listed version. */
  lemma NothingIsMissing(r: map<Version, VersionRecord>, vs: seq<VersionRecord>, toPull: seq<VersionRecord>, r': map<Version, VersionRecord>)
    requires forall x :: x in toPull <==> x in vs && x.version !in r
    requires r' == RecordAll(r, toPull)
    ensures Pulled(r, r', vs)
    ensures forall v | v in Names(toPull) :: v in r'
  {
    ListedAreRecorded(r, toPull, r');
  }
}
