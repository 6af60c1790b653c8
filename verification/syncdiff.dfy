/** The decisions of a sync pass: which versions to pull and in which order, which aliases and geo
    objects to write and to delete, and which maps to mirror. */
module SyncDiff {
  import opened Lists

  type MapId = nat
  type Uuid = nat
  type Version = string
  type Time = int

  datatype VersionRecord = VersionRecord(version: Version, createdAt: Time, createdBy: string)
  datatype AliasRecord = AliasRecord(alias: string, version: Version)

  /** A geo_objects row; fields stands for its name, address and coordinates. */
  datatype Geo = Geo(uuid: Uuid, mapId: MapId, version: Version, updatedAt: Time, fields: string)

  // ----- Versions -----

  function NotLocal(alreadyLocal: map<Version, bool>): VersionRecord -> bool {
    (v: VersionRecord) => !(v.version in alreadyLocal && alreadyLocal[v.version])
  }

  ghost predicate OldestFirst(s: seq<VersionRecord>) {
    forall i, j | 0 <= i < j < |s| :: s[i].createdAt <= s[j].createdAt
  }

  /** The missing versions, each once for each listing, oldest first. */
  method VersionsToPull(alreadyLocal: map<Version, bool>, remote: seq<VersionRecord>) returns (toPull: seq<VersionRecord>)
    ensures multiset(toPull) == multiset(Filter(remote, NotLocal(alreadyLocal)))
    ensures OldestFirst(toPull)
    ensures forall x :: x in toPull <==> x in remote && !(x.version in alreadyLocal && alreadyLocal[x.version])
  {
    hide OldestFirst;
    var missing := [];
    for i := 0 to |remote|
      invariant missing == Filter(remote[..i], NotLocal(alreadyLocal))
    {
      FilterSnoc(remote, NotLocal(alreadyLocal), i);
      if !(remote[i].version in alreadyLocal && alreadyLocal[remote[i].version]) {
        missing := missing + [remote[i]];
      }
    }
    assert remote[..|remote|] == remote;
    toPull := SortByCreation(missing);
    MissingIff(toPull, alreadyLocal, remote);
  }

  lemma MissingIff(toPull: seq<VersionRecord>, alreadyLocal: map<Version, bool>, remote: seq<VersionRecord>)
    requires multiset(toPull) == multiset(Filter(remote, NotLocal(alreadyLocal)))
    ensures forall x :: x in toPull <==> x in remote && !(x.version in alreadyLocal && alreadyLocal[x.version])
  {
    var missing := Filter(remote, NotLocal(alreadyLocal));
    forall x ensures x in toPull <==> x in missing {
      assert x in toPull <==> x in multiset(toPull);
      assert x in missing <==> x in multiset(missing);
    }
  }

  function InsertByCreation(s: seq<VersionRecord>, v: VersionRecord): (r: seq<VersionRecord>)
    requires OldestFirst(s)
    ensures OldestFirst(r) && multiset(r) == multiset(s) + multiset{v}
    ensures forall x | x in r :: x in s || x == v
  {
    var n := |s|;
    if n == 0 || s[n - 1].createdAt <= v.createdAt then s + [v]
    else
      var front := InsertByCreation(s[..n - 1], v);
      assert s == s[..n - 1] + [s[n - 1]];
      AppendLatest(front, s[n - 1], s, v);
      front + [s[n - 1]]
  }

  lemma AppendLatest(front: seq<VersionRecord>, last: VersionRecord, s: seq<VersionRecord>, v: VersionRecord)
    requires OldestFirst(front) && OldestFirst(s) && s != [] && last == s[|s| - 1] && v.createdAt < last.createdAt
    requires forall x | x in front :: x in s[..|s| - 1] || x == v
    ensures OldestFirst(front + [last])
  {
    forall i | 0 <= i < |front| ensures front[i].createdAt <= last.createdAt {
      if front[i] != v {
        assert front[i] in front;
        var j :| 0 <= j < |s| - 1 && s[..|s| - 1][j] == front[i];
        assert s[j].createdAt <= s[|s| - 1].createdAt;
      }
    }
  }

  /** A sort by creation time; which of several equally old versions comes first is left open. */
  method SortByCreation(s: seq<VersionRecord>) returns (r: seq<VersionRecord>)
    ensures multiset(r) == multiset(s) && OldestFirst(r)
  {
    r := [];
    for i := 0 to |s|
      invariant multiset(r) == multiset(s[..i]) && OldestFirst(r)
    {
      assert s[..i + 1] == s[..i] + [s[i]];
      r := InsertByCreation(r, s[i]);
    }
    assert s[..|s|] == s;
  }

  // ----- Aliases -----

  function ByAlias(s: seq<AliasRecord>): (m: map<string, Version>)
    ensures forall a | a in s :: a.alias in m
    ensures forall n | n in m :: AliasRecord(n, m[n]) in s
  {
    if s == [] then map[]
    else
      assert s == s[..|s| - 1] + [s[|s| - 1]];
      ByAlias(s[..|s| - 1])[s[|s| - 1].alias := s[|s| - 1].version]
  }

  function AliasDiffers(local: map<string, Version>): AliasRecord -> bool {
    (r: AliasRecord) => r.alias !in local || local[r.alias] != r.version
  }

  function AliasGone(remote: map<string, Version>): AliasRecord -> bool {
    (l: AliasRecord) => l.alias !in remote
  }

  method IndexAliases(s: seq<AliasRecord>) returns (m: map<string, Version>)
    ensures m == ByAlias(s)
  {
    m := map[];
    for i := 0 to |s|
      invariant m == ByAlias(s[..i])
    {
      assert s[..i + 1][..i] == s[..i];
      m := m[s[i].alias := s[i].version];
    }
    assert s[..|s|] == s;
  }

  ghost predicate OneTargetEach(s: seq<AliasRecord>) {
    forall a, b | a in s && b in s && a.alias == b.alias :: a == b
  }

  lemma ToSetAndToDelete(local: seq<AliasRecord>, remote: seq<AliasRecord>)
    ensures OneTargetEach(local) ==> forall r :: AliasDiffers(ByAlias(local))(r) <==> r !in local
    ensures forall l :: AliasGone(ByAlias(remote))(l) <==> forall r | r in remote :: r.alias != l.alias
  {
    forall n | n in ByAlias(local) ensures AliasRecord(n, ByAlias(local)[n]) in local {}
    forall r: AliasRecord ensures r in local ==> r.alias in ByAlias(local) {}
    forall n | n in ByAlias(remote) ensures AliasRecord(n, ByAlias(remote)[n]) in remote {}
    hide ByAlias;
    forall l: AliasRecord ensures AliasGone(ByAlias(remote))(l) <==> forall r | r in remote :: r.alias != l.alias {
      if l.alias in ByAlias(remote) { assert AliasRecord(l.alias, ByAlias(remote)[l.alias]).alias == l.alias; }
    }
  }

  method ReconcileAliases(local: seq<AliasRecord>, remote: seq<AliasRecord>)
    returns (toSet: seq<AliasRecord>, toDelete: seq<AliasRecord>)
    ensures toSet == Filter(remote, AliasDiffers(ByAlias(local)))
    ensures toDelete == Filter(local, AliasGone(ByAlias(remote)))
    ensures OneTargetEach(local) ==> forall r :: r in toSet <==> r in remote && r !in local
    ensures forall l :: l in toDelete <==> l in local && forall r | r in remote :: r.alias != l.alias
  {
    ToSetAndToDelete(local, remote);
    var localByAlias := IndexAliases(local);
    var remoteByAlias := IndexAliases(remote);
    toSet, toDelete := [], [];
    for i := 0 to |remote|
      invariant toSet == Filter(remote[..i], AliasDiffers(localByAlias))
    {
      FilterSnoc(remote, AliasDiffers(localByAlias), i);
      if remote[i].alias !in localByAlias || localByAlias[remote[i].alias] != remote[i].version {
        toSet := toSet + [remote[i]];
      }
    }
    for i := 0 to |local|
      invariant toDelete == Filter(local[..i], AliasGone(remoteByAlias))
    {
      FilterSnoc(local, AliasGone(remoteByAlias), i);
      if local[i].alias !in remoteByAlias {
        toDelete := toDelete + [local[i]];
      }
    }
    assert remote[..|remote|] == remote && local[..|local|] == local;
  }

  // ----- Geo objects -----

  function ById(s: seq<Geo>): (m: map<Uuid, Geo>)
    ensures forall g | g in s :: g.uuid in m
    ensures forall u | u in m :: m[u] in s && m[u].uuid == u
  {
    if s == [] then map[]
    else
      assert s == s[..|s| - 1] + [s[|s| - 1]];
      ById(s[..|s| - 1])[s[|s| - 1].uuid := s[|s| - 1]]
  }

  function GeoDiffers(local: map<Uuid, Geo>): Geo -> bool {
    (r: Geo) => r.uuid !in local || local[r.uuid].updatedAt != r.updatedAt
  }

  function GeoGone(remote: set<Uuid>): Geo -> bool {
    (l: Geo) => l.uuid !in remote
  }

  lemma NoObjects()
    ensures ById([]) == map[]
  {
  }

  lemma OneMoreObject(s: seq<Geo>, g: Geo)
    ensures ById(s + [g]) == ById(s)[g.uuid := g]
  {
    assert (s + [g])[..|s|] == s;
  }

  lemma NextObject(s: seq<Geo>, i: nat)
    requires i < |s|
    ensures ById(s[..i + 1]) == ById(s[..i])[s[i].uuid := s[i]]
  {
    assert s[..i + 1] == s[..i] + [s[i]];
    OneMoreObject(s[..i], s[i]);
  }

  method IndexGeo(s: seq<Geo>) returns (m: map<Uuid, Geo>)
    ensures m == ById(s)
  {
    hide ById;
    m := map[];
    NoObjects();
    for i := 0 to |s|
      invariant m == ById(s[..i])
    {
      NextObject(s, i);
      m := m[s[i].uuid := s[i]];
    }
    assert s[..|s|] == s;
  }

  /** The loop over the remote's objects: what to write, and every id seen. */
  method ChangedGeo(localByID: map<Uuid, Geo>, remote: seq<Geo>) returns (toUpsert: seq<Geo>, remoteByID: set<Uuid>)
    ensures toUpsert == Filter(remote, GeoDiffers(localByID))
    ensures remoteByID == ById(remote).Keys
  {
    hide ById;
    remoteByID, toUpsert := {}, [];
    NoObjects();
    for i := 0 to |remote|
      invariant remoteByID == ById(remote[..i]).Keys
      invariant toUpsert == Filter(remote[..i], GeoDiffers(localByID))
    {
      NextObject(remote, i);
      FilterSnoc(remote, GeoDiffers(localByID), i);
      remoteByID := remoteByID + {remote[i].uuid};
      if remote[i].uuid !in localByID || localByID[remote[i].uuid].updatedAt != remote[i].updatedAt {
        toUpsert := toUpsert + [remote[i]];
      }
    }
    assert remote[..|remote|] == remote;
  }

  ghost predicate OneRowEach(s: seq<Geo>) {
    forall a, b | a in s && b in s && a.uuid == b.uuid :: a == b
  }

  lemma ToUpsertAndToDelete(local: seq<Geo>, remote: seq<Geo>)
    ensures OneRowEach(local) ==>
              forall g :: GeoDiffers(ById(local))(g) <==> forall l | l in local && l.uuid == g.uuid :: l.updatedAt != g.updatedAt
    ensures forall l :: GeoGone(ById(remote).Keys)(l) <==> forall g | g in remote :: g.uuid != l.uuid
  {
    hide ById;
    forall g: Geo ensures OneRowEach(local) ==>
        (GeoDiffers(ById(local))(g) <==> forall l | l in local && l.uuid == g.uuid :: l.updatedAt != g.updatedAt)
    {
      if g.uuid in ById(local) { assert ById(local)[g.uuid] in local; }
    }
    forall l: Geo ensures GeoGone(ById(remote).Keys)(l) <==> forall g | g in remote :: g.uuid != l.uuid {
      if l.uuid in ById(remote) { assert ById(remote)[l.uuid] in remote; }
    }
  }

  method ReconcileGeoObjects(local: seq<Geo>, remote: seq<Geo>) returns (toUpsert: seq<Geo>, toDelete: seq<Geo>)
    ensures toUpsert == Filter(remote, GeoDiffers(ById(local)))
    ensures toDelete == Filter(local, GeoGone(ById(remote).Keys))
    ensures OneRowEach(local) ==>
              forall g :: g in toUpsert <==> g in remote && forall l | l in local && l.uuid == g.uuid :: l.updatedAt != g.updatedAt
    ensures forall l :: l in toDelete <==> l in local && forall g | g in remote :: g.uuid != l.uuid
  {
    ToUpsertAndToDelete(local, remote);
    var localByID := IndexGeo(local);
    var remoteByID;
    toUpsert, remoteByID := ChangedGeo(localByID, remote);
    toDelete := [];
    for i := 0 to |local|
      invariant toDelete == Filter(local[..i], GeoGone(remoteByID))
    {
      FilterSnoc(local, GeoGone(remoteByID), i);
      if local[i].uuid !in remoteByID {
        toDelete := toDelete + [local[i]];
      }
    }
    assert local[..|local|] == local;
  }

  // ----- Maps -----

  function Wanted(syncNewMaps: bool, selected: set<MapId>, known: set<MapId>): MapId -> bool {
    m => m in selected || (syncNewMaps && m !in known)
  }

  /** mapsToSync: the selected maps, and unknown ones if new maps are wanted, in the remote's order. */
  method MapsToSync(maps: seq<MapId>, syncNewMaps: bool, selected: set<MapId>, known: set<MapId>)
    returns (toSync: seq<MapId>)
    ensures toSync == Filter(maps, Wanted(syncNewMaps, selected, known))
    ensures forall m :: m in toSync <==> m in maps && (m in selected || (syncNewMaps && m !in known))
  {
    toSync := [];
    for i := 0 to |maps|
      invariant toSync == Filter(maps[..i], Wanted(syncNewMaps, selected, known))
    {
      FilterSnoc(maps, Wanted(syncNewMaps, selected, known), i);
      if maps[i] in selected || (syncNewMaps && maps[i] !in known) {
        toSync := toSync + [maps[i]];
      }
    }
    assert maps[..|maps|] == maps;
  }
}
