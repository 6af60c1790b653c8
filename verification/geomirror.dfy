/** What a sync pass does to the geo_objects table, and exactly when that makes the listed versions'
    objects equal to the remote's. An upsert never moves a row: on a conflicting uuid the map and the
    version it was created under stay. */
module GeoMirror {
  import opened Lists
  import opened SyncDiff
  import opened Wrappers

  type Table = map<Uuid, Geo>

  /** The remote's answer for each version's geo objects. */
  type Listing = Version -> seq<Geo>

  function Get(t: Table, u: Uuid): Option<Geo> { if u in t then Some(t[u]) else None }

  predicate At(g: Geo, id: MapId, v: Version) { g.mapId == id && g.version == v }

  predicate RowAt(row: Option<Geo>, id: MapId, v: Version) { row.Some? && At(row.value, id, v) }

  /** UpsertSyncedGeoObject on one row. */
  function Upsert(row: Option<Geo>, g: Geo): Geo {
    if row.Some? then row.value.(updatedAt := g.updatedAt, fields := g.fields) else g
  }

  /** One row before and after one version's reconciliation, given the remote's object of that uuid. */
  function StepRow(row: Option<Geo>, id: MapId, v: Version, obj: Option<Geo>): Option<Geo> {
    match obj
    case Some(g) =>
      if RowAt(row, id, v) && row.value.updatedAt == g.updatedAt then row else Some(Upsert(row, g))
    case None => if RowAt(row, id, v) then None else row
  }

  /** The table after syncGeoObjectsForVersion. */
  function SyncVersion(t: Table, id: MapId, v: Version, objs: seq<Geo>): Table {
    map u | u in t.Keys + ById(objs).Keys && StepRow(Get(t, u), id, v, Get(ById(objs), u)).Some?
      :: StepRow(Get(t, u), id, v, Get(ById(objs), u)).value
  }

  /** The table after syncMapGeoObjects went through the versions in order. */
  function SyncAll(t: Table, id: MapId, vs: seq<Version>, geo: Listing): Table {
    if vs == [] then t
    else
      var n := |vs| - 1;
      SyncVersion(SyncAll(t, id, vs[..n], geo), id, vs[n], geo(vs[n]))
  }

  function RowAfter(row: Option<Geo>, u: Uuid, id: MapId, vs: seq<Version>, geo: Listing): Option<Geo> {
    if vs == [] then row
    else
      var n := |vs| - 1;
      StepRow(RowAfter(row, u, id, vs[..n], geo), id, vs[n], Get(ById(geo(vs[n])), u))
  }

  lemma {:induction false} RowsAreIndependent(t: Table, u: Uuid, id: MapId, vs: seq<Version>, geo: Listing)
    ensures Get(SyncAll(t, id, vs, geo), u) == RowAfter(Get(t, u), u, id, vs, geo)
  {
    if vs != [] {
      RowsAreIndependent(t, u, id, vs[..|vs| - 1], geo);
    }
  }

  lemma {:induction false} RowAfterTwo(row: Option<Geo>, u: Uuid, id: MapId, a: seq<Version>, b: seq<Version>, geo: Listing)
    ensures RowAfter(row, u, id, a + b, geo) == RowAfter(RowAfter(row, u, id, a, geo), u, id, b, geo)
  {
    hide ById, StepRow;
    if b == [] {
      assert a + b == a;
    } else {
      var n := |b| - 1;
      RowAfterTwo(row, u, id, a, b[..n], geo);
      assert (a + b)[..|a + b| - 1] == a + b[..n];
    }
  }

  /** The remote's objects are filed under the version they are listed for, and a uuid names one
      object of the remote: what its primary key guarantees. */
  ghost predicate WellFormed(id: MapId, vs: seq<Version>, geo: Listing) {
    && Distinct(vs)
    && (forall i, g | 0 <= i < |vs| && g in geo(vs[i]) :: At(g, id, vs[i]))
    && (forall i, g, h | 0 <= i < |vs| && g in geo(vs[i]) && h in geo(vs[i]) && g.uuid == h.uuid :: g == h)
    && (forall i, j, g, h | 0 <= i < |vs| && 0 <= j < |vs| && i != j && g in geo(vs[i]) && h in geo(vs[j]) ::
          g.uuid != h.uuid)
  }

  predicate ListedAt(u: Uuid, v: Version, geo: Listing) { u in ById(geo(v)) }

  /** A uuid the remote does not list keeps its row, unless the row is under one of the versions. */
  lemma {:induction false} Unlisted(row: Option<Geo>, u: Uuid, id: MapId, vs: seq<Version>, geo: Listing)
    requires forall v | v in vs :: !ListedAt(u, v, geo)
    ensures RowAfter(row, u, id, vs, geo) ==
              if row.Some? && row.value.mapId == id && row.value.version in vs then None else row
  {
    hide ById;
    if vs != [] {
      var n := |vs| - 1;
      assert vs == vs[..n] + [vs[n]];
      assert !ListedAt(u, vs[n], geo);
      Unlisted(row, u, id, vs[..n], geo);
      assert Get(ById(geo(vs[n])), u) == None;
    }
  }

  /** A row is in place for version i if there is none, or it is this map's and of a version that is
      reconciled no later than i. */
  predicate Home(row: Option<Geo>, id: MapId, vs: seq<Version>, i: nat)
    requires i < |vs|
  {
    row.Some? ==> row.value.mapId == id && row.value.version in vs[..i + 1]
  }

  /** The step of the version that lists the uuid, after the earlier versions took their rows. */
  lemma OwnStep(row: Option<Geo>, id: MapId, vs: seq<Version>, i: nat, g: Geo)
    requires i < |vs| && vs[i] !in vs[..i] && At(g, id, vs[i])
    ensures var before := if row.Some? && row.value.mapId == id && row.value.version in vs[..i] then None else row;
            var mid := StepRow(before, id, vs[i], Some(g));
            && mid.Some? && mid.value.updatedAt == g.updatedAt
            && (if Home(row, id, vs, i) then At(mid.value, id, vs[i])
                else mid.value.mapId == row.value.mapId && mid.value.version == row.value.version)
  {
    assert vs[..i + 1] == vs[..i] + [vs[i]];
  }

  /** After its own version's step the row is out of the later versions' reach, or still in it. */
  lemma LaterSteps(row: Option<Geo>, mid: Option<Geo>, id: MapId, vs: seq<Version>, i: nat, g: Geo)
    requires i < |vs| && vs[i] !in vs[i + 1..] && mid.Some? && mid.value.updatedAt == g.updatedAt
    requires if Home(row, id, vs, i) then At(mid.value, id, vs[i])
             else mid.value.mapId == row.value.mapId && mid.value.version == row.value.version
    ensures var final := if mid.value.mapId == id && mid.value.version in vs[i + 1..] then None else mid;
            if Home(row, id, vs, i) then RowAt(final, id, vs[i]) && final.value.updatedAt == g.updatedAt
            else forall v | v in vs :: !RowAt(final, id, v)
  {
    SplitAt(vs, i);
  }

  lemma UpToOwnStep(row: Option<Geo>, u: Uuid, id: MapId, vs: seq<Version>, geo: Listing, i: nat)
    requires i < |vs| && ListedAt(u, vs[i], geo)
    ensures RowAfter(row, u, id, vs[..i + 1], geo)
            == StepRow(RowAfter(row, u, id, vs[..i], geo), id, vs[i], Some(ById(geo(vs[i]))[u]))
  {
    hide ById, StepRow;
    assert vs[..i + 1][..i] == vs[..i];
  }

  lemma FromOwnStep(row: Option<Geo>, u: Uuid, id: MapId, vs: seq<Version>, geo: Listing, i: nat)
    requires i < |vs|
    ensures RowAfter(row, u, id, vs, geo) == RowAfter(RowAfter(row, u, id, vs[..i + 1], geo), u, id, vs[i + 1..], geo)
  {
    assert vs == vs[..i + 1] + vs[i + 1..];
    RowAfterTwo(row, u, id, vs[..i + 1], vs[i + 1..], geo);
  }

  /** Where a listed uuid's row ends up. */
  lemma Listed(row: Option<Geo>, u: Uuid, id: MapId, vs: seq<Version>, geo: Listing, i: nat)
    requires WellFormed(id, vs, geo) && i < |vs| && ListedAt(u, vs[i], geo)
    ensures var final := RowAfter(row, u, id, vs, geo);
            if Home(row, id, vs, i)
            then RowAt(final, id, vs[i]) && final.value.updatedAt == ById(geo(vs[i]))[u].updatedAt
            else forall v | v in vs :: !RowAt(final, id, v)
  {
    var g := ById(geo(vs[i]))[u];
    hide ById, WellFormed, StepRow, Home, RowAt, RowAfter, ListedAt;
    OthersDoNotList(u, id, vs, geo, i);
    OwnObject(u, id, vs, geo, i);
    UpToOwnStep(row, u, id, vs, geo, i);
    FromOwnStep(row, u, id, vs, geo, i);
    Unlisted(row, u, id, vs[..i], geo);
    OwnStep(row, id, vs, i, g);
    var mid := RowAfter(row, u, id, vs[..i + 1], geo);
    Unlisted(mid, u, id, vs[i + 1..], geo);
    LaterSteps(row, mid, id, vs, i, g);
  }

  lemma OwnObject(u: Uuid, id: MapId, vs: seq<Version>, geo: Listing, i: nat)
    requires WellFormed(id, vs, geo) && i < |vs| && ListedAt(u, vs[i], geo)
    ensures At(ById(geo(vs[i]))[u], id, vs[i])
  {
    assert ById(geo(vs[i]))[u] in geo(vs[i]);
  }

  lemma SplitAt(vs: seq<Version>, i: nat)
    requires i < |vs|
    ensures forall v | v in vs :: v in vs[..i + 1] || v in vs[i + 1..]
  {
    assert vs == vs[..i + 1] + vs[i + 1..];
  }

  lemma OthersDoNotList(u: Uuid, id: MapId, vs: seq<Version>, geo: Listing, i: nat)
    requires WellFormed(id, vs, geo) && i < |vs| && ListedAt(u, vs[i], geo)
    ensures forall v | v in vs[..i] :: !ListedAt(u, v, geo)
    ensures forall v | v in vs[i + 1..] :: !ListedAt(u, v, geo) && v != vs[i]
    ensures vs[i] !in vs[..i]
  {
    var g := ById(geo(vs[i]))[u];
    assert g in geo(vs[i]) && g.uuid == u;
    forall j | 0 <= j < |vs| && j != i ensures !ListedAt(u, vs[j], geo) && vs[j] != vs[i] {
      assert forall h | h in geo(vs[j]) :: h.uuid != u;
      assert forall w | w in ById(geo(vs[j])) :: ById(geo(vs[j]))[w] in geo(vs[j]) && w != u;
    }
  }

  /** The version's local objects equal the remote's by uuid and UpdatedAt. */
  ghost predicate GeoEqual(t: Table, id: MapId, v: Version, objs: seq<Geo>) {
    && (forall u :: RowAt(Get(t, u), id, v) <==> u in ById(objs))
    && (forall u | u in ById(objs) && u in t :: t[u].updatedAt == ById(objs)[u].updatedAt)
  }

  /** No remote object has a local row that belongs to another map, to an unlisted version, or to a
      version that is reconciled after the object's own. */
  ghost predicate AllHome(t: Table, id: MapId, vs: seq<Version>, geo: Listing) {
    forall i, u | 0 <= i < |vs| && ListedAt(u, vs[i], geo) :: Home(Get(t, u), id, vs, i)
  }

  /** One pass makes every listed version's geo objects equal to the remote's if and only if every
      remote object's row was in place before it. */
  lemma GeoConvergesIffAllHome(t: Table, id: MapId, vs: seq<Version>, geo: Listing)
    requires WellFormed(id, vs, geo)
    ensures (forall i | 0 <= i < |vs| :: GeoEqual(SyncAll(t, id, vs, geo), id, vs[i], geo(vs[i])))
            <==> AllHome(t, id, vs, geo)
  {
    var t' := SyncAll(t, id, vs, geo);
    if AllHome(t, id, vs, geo) {
      forall i | 0 <= i < |vs| ensures GeoEqual(t', id, vs[i], geo(vs[i])) {
        forall u ensures RowAt(Get(t', u), id, vs[i]) <==> u in ById(geo(vs[i]))
                 ensures u in ById(geo(vs[i])) && u in t' ==> t'[u].updatedAt == ById(geo(vs[i]))[u].updatedAt
        {
          RowEndsRight(t, u, id, vs, geo, i);
        }
      }
    } else {
      var i, u :| 0 <= i < |vs| && ListedAt(u, vs[i], geo) && !Home(Get(t, u), id, vs, i);
      RowsAreIndependent(t, u, id, vs, geo);
      Listed(Get(t, u), u, id, vs, geo, i);
      assert vs[i] in vs;
      assert !GeoEqual(t', id, vs[i], geo(vs[i]));
    }
  }

  lemma RowEndsRight(t: Table, u: Uuid, id: MapId, vs: seq<Version>, geo: Listing, i: nat)
    requires WellFormed(id, vs, geo) && AllHome(t, id, vs, geo) && i < |vs|
    ensures var t' := SyncAll(t, id, vs, geo);
            && (RowAt(Get(t', u), id, vs[i]) <==> u in ById(geo(vs[i])))
            && (u in ById(geo(vs[i])) && u in t' ==> t'[u].updatedAt == ById(geo(vs[i]))[u].updatedAt)
  {
    RowsAreIndependent(t, u, id, vs, geo);
    if j :| 0 <= j < |vs| && ListedAt(u, vs[j], geo) {
      Listed(Get(t, u), u, id, vs, geo, j);
      OthersDoNotList(u, id, vs, geo, j);
      assert i < j ==> vs[i] in vs[..j];
      assert i > j ==> vs[i] in vs[j + 1..];
    } else {
      Unlisted(Get(t, u), u, id, vs, geo);
      assert vs[i] in vs && !ListedAt(u, vs[i], geo);
    }
  }

  // ----- The contents of the rows -----

  ghost predicate GeoOk(geo: Table) { forall u | u in geo :: geo[u].uuid == u }

  lemma SyncVersionKeepsKeys(t: Table, id: MapId, v: Version, objs: seq<Geo>)
    requires GeoOk(t)
    ensures GeoOk(SyncVersion(t, id, v, objs))
  {
  }

  lemma {:induction false} SyncAllKeepsKeys(t: Table, id: MapId, vs: seq<Version>, geo: Listing)
    requires GeoOk(t)
    ensures GeoOk(SyncAll(t, id, vs, geo))
  {
    hide GeoOk, SyncVersion;
    if vs != [] {
      var n := |vs| - 1;
      SyncAllKeepsKeys(t, id, vs[..n], geo);
      SyncVersionKeepsKeys(SyncAll(t, id, vs[..n], geo), id, vs[n], geo(vs[n]));
    }
  }

  /** One version's reconciliation on the row of u, column by column: a new object is inserted as the
      remote has it, a row dated otherwise or filed elsewhere takes the remote's date and fields and stays
      where it is filed, a row of this version that the remote lacks goes, and any other stays as it is. */
  ghost predicate RowReconciled(row: Option<Geo>, u: Uuid, id: MapId, v: Version, objs: seq<Geo>, row': Option<Geo>) {
    && (forall g | g in objs && g.uuid == u ::
          row' == match row
                  case None => Some(g)
                  case Some(r) =>
                    if r.mapId == id && r.version == v && r.updatedAt == g.updatedAt then row
                    else Some(Geo(r.uuid, r.mapId, r.version, g.updatedAt, g.fields)))
    && ((forall g | g in objs :: g.uuid != u) ==>
          row' == if row.Some? && row.value.mapId == id && row.value.version == v then None else row)
  }

  ghost predicate Reconciled(t: Table, id: MapId, v: Version, objs: seq<Geo>, t': Table) {
    forall u :: RowReconciled(Get(t, u), u, id, v, objs, Get(t', u))
  }

  ghost predicate OneObjectEach(objs: seq<Geo>) {
    forall g, h | g in objs && h in objs && g.uuid == h.uuid :: g == h
  }

  lemma StepRowReconciles(row: Option<Geo>, u: Uuid, id: MapId, v: Version, objs: seq<Geo>)
    requires OneObjectEach(objs)
    ensures RowReconciled(row, u, id, v, objs, StepRow(row, id, v, Get(ById(objs), u)))
  {
    forall g | g in objs && g.uuid == u ensures u in ById(objs) && ById(objs)[u] == g {
      assert ById(objs)[u] in objs;
    }
    assert u in ById(objs) ==> ById(objs)[u] in objs && ById(objs)[u].uuid == u;
    hide ById;
  }

  lemma SyncVersionReconciles(t: Table, id: MapId, v: Version, objs: seq<Geo>)
    requires OneObjectEach(objs)
    ensures Reconciled(t, id, v, objs, SyncVersion(t, id, v, objs))
  {
    forall u ensures RowReconciled(Get(t, u), u, id, v, objs, Get(SyncVersion(t, id, v, objs), u)) {
      hide RowReconciled, OneObjectEach;
      StepRowReconciles(Get(t, u), u, id, v, objs);
      assert Get(SyncVersion(t, id, v, objs), u) == StepRow(Get(t, u), id, v, Get(ById(objs), u));
    }
  }

  /** A row that is in place and dated like the remote's object is taken for it. */
  predicate TakenForEqual(row: Option<Geo>, id: MapId, v: Version, g: Geo) {
    RowAt(row, id, v) && row.value.updatedAt == g.updatedAt
  }

  /** After a pass over all versions, a listed uuid whose row was in place is the remote's object in
      every column, unless its row was taken for equal, and then it is as it was. */
  lemma ListedRowIsRemotes(row: Option<Geo>, u: Uuid, id: MapId, vs: seq<Version>, geo: Listing, i: nat)
    requires WellFormed(id, vs, geo) && i < |vs| && ListedAt(u, vs[i], geo) && Home(row, id, vs, i) && (row.Some? ==> row.value.uuid == u)
    ensures RowAfter(row, u, id, vs, geo) ==
              if TakenForEqual(row, id, vs[i], ById(geo(vs[i]))[u]) then row else Some(ById(geo(vs[i]))[u])
  {
    var g := ById(geo(vs[i]))[u];
    hide ById, WellFormed, StepRow, Home, RowAt, RowAfter, ListedAt;
    OthersDoNotList(u, id, vs, geo, i);
    OwnObject(u, id, vs, geo, i);
    UpToOwnStep(row, u, id, vs, geo, i);
    FromOwnStep(row, u, id, vs, geo, i);
    Unlisted(row, u, id, vs[..i], geo);
    OwnStepContents(row, u, id, vs, i, g);
    Unlisted(RowAfter(row, u, id, vs[..i + 1], geo), u, id, vs[i + 1..], geo);
    NotAgain(vs, geo, u, id, i);
  }

  lemma NotAgain(vs: seq<Version>, geo: Listing, u: Uuid, id: MapId, i: nat)
    requires WellFormed(id, vs, geo) && i < |vs|
    ensures vs[i] !in vs[i + 1..]
  {
  }

  lemma OwnStepContents(row: Option<Geo>, u: Uuid, id: MapId, vs: seq<Version>, i: nat, g: Geo)
    requires i < |vs| && vs[i] !in vs[..i] && At(g, id, vs[i]) && g.uuid == u && Home(row, id, vs, i)
    requires row.Some? ==> row.value.uuid == u
    ensures var before := if row.Some? && row.value.mapId == id && row.value.version in vs[..i] then None else row;
            var mid := StepRow(before, id, vs[i], Some(g));
            && mid == (if TakenForEqual(row, id, vs[i], g) then row else Some(g))
            && mid.Some? && At(mid.value, id, vs[i])
  {
    assert vs[..i + 1] == vs[..i] + [vs[i]];
  }

  /** No row that will be taken for a remote object differs from it: equal dates mean equal objects. */
  ghost predicate DatesTell(t: Table, id: MapId, vs: seq<Version>, geo: Listing) {
    forall i, u | 0 <= i < |vs| && ListedAt(u, vs[i], geo) && TakenForEqual(Get(t, u), id, vs[i], ById(geo(vs[i]))[u]) ::
      t[u] == ById(geo(vs[i]))[u]
  }

  /** The version's local rows are the remote's objects, in every column. */
  ghost predicate SameObjects(t: Table, id: MapId, v: Version, objs: seq<Geo>) {
    && (forall g | g in objs :: g.uuid in t && t[g.uuid] == g)
    && (forall u | u in t && t[u].mapId == id && t[u].version == v :: t[u] in objs)
  }

  /** One pass makes every listed version's rows the remote's objects, contents and all, if and only if
      every remote object's row was in place before it and no two objects shared a date but differed. */
  lemma ContentsConvergeIff(t: Table, id: MapId, vs: seq<Version>, geo: Listing)
    requires WellFormed(id, vs, geo) && GeoOk(t)
    ensures (forall i | 0 <= i < |vs| :: SameObjects(SyncAll(t, id, vs, geo), id, vs[i], geo(vs[i])))
            <==> AllHome(t, id, vs, geo) && DatesTell(t, id, vs, geo)
  {
    var t' := SyncAll(t, id, vs, geo);
    SyncAllKeepsKeys(t, id, vs, geo);
    if AllHome(t, id, vs, geo) && DatesTell(t, id, vs, geo) {
      hide AllHome, DatesTell, WellFormed, GeoOk, SameObjects;
      forall i | 0 <= i < |vs| ensures SameObjects(t', id, vs[i], geo(vs[i])) { ObjectsArrive(t, id, vs, geo, i); }
    }
    if forall i | 0 <= i < |vs| :: SameObjects(t', id, vs[i], geo(vs[i])) {
      hide AllHome, WellFormed, GeoOk, SameObjects, GeoEqual;
      forall i | 0 <= i < |vs| ensures GeoEqual(t', id, vs[i], geo(vs[i])) { SameIsEqual(t', id, vs, geo, i); }
      GeoConvergesIffAllHome(t, id, vs, geo);
      forall i, u | 0 <= i < |vs| && ListedAt(u, vs[i], geo) && TakenForEqual(Get(t, u), id, vs[i], ById(geo(vs[i]))[u])
        ensures t[u] == ById(geo(vs[i]))[u]
      {
        TakenRowStays(t, id, vs, geo, i, u);
      }
    }
  }

  lemma TakenRowStays(t: Table, id: MapId, vs: seq<Version>, geo: Listing, i: nat, u: Uuid)
    requires WellFormed(id, vs, geo) && GeoOk(t) && i < |vs| && ListedAt(u, vs[i], geo) && AllHome(t, id, vs, geo)
    requires TakenForEqual(Get(t, u), id, vs[i], ById(geo(vs[i]))[u])
    requires SameObjects(SyncAll(t, id, vs, geo), id, vs[i], geo(vs[i]))
    ensures t[u] == ById(geo(vs[i]))[u]
  {
    RowsAreIndependent(t, u, id, vs, geo);
    ListedRowIsRemotes(Get(t, u), u, id, vs, geo, i);
    assert ById(geo(vs[i]))[u] in geo(vs[i]);
    hide WellFormed, SyncAll, RowAfter;
  }

  lemma ObjectOfUuid(id: MapId, vs: seq<Version>, geo: Listing, i: nat, g: Geo)
    requires WellFormed(id, vs, geo) && i < |vs| && g in geo(vs[i])
    ensures ById(geo(vs[i]))[g.uuid] == g && g.mapId == id && g.version == vs[i]
  {
    assert ById(geo(vs[i]))[g.uuid] in geo(vs[i]);
  }

  lemma SameIsEqual(t: Table, id: MapId, vs: seq<Version>, geo: Listing, i: nat)
    requires WellFormed(id, vs, geo) && GeoOk(t) && i < |vs| && SameObjects(t, id, vs[i], geo(vs[i]))
    ensures GeoEqual(t, id, vs[i], geo(vs[i]))
  {
    var objs := geo(vs[i]);
    forall u | u in ById(objs) ensures RowAt(Get(t, u), id, vs[i]) && t[u] == ById(objs)[u] {
      ObjectOfUuid(id, vs, geo, i, ById(objs)[u]);
    }
    hide WellFormed;
  }

  lemma ObjectArrives(t: Table, id: MapId, vs: seq<Version>, geo: Listing, i: nat, u: Uuid)
    requires WellFormed(id, vs, geo) && GeoOk(t) && i < |vs| && AllHome(t, id, vs, geo) && DatesTell(t, id, vs, geo)
    requires ListedAt(u, vs[i], geo)
    ensures Get(SyncAll(t, id, vs, geo), u) == Some(ById(geo(vs[i]))[u])
  {
    RowsAreIndependent(t, u, id, vs, geo);
    ListedRowIsRemotes(Get(t, u), u, id, vs, geo, i);
    hide WellFormed, SyncAll, RowAfter, ById;
  }

  lemma ObjectsArrive(t: Table, id: MapId, vs: seq<Version>, geo: Listing, i: nat)
    requires WellFormed(id, vs, geo) && GeoOk(t) && i < |vs| && AllHome(t, id, vs, geo) && DatesTell(t, id, vs, geo)
    ensures SameObjects(SyncAll(t, id, vs, geo), id, vs[i], geo(vs[i]))
  {
    hide WellFormed, GeoOk, AllHome, DatesTell, SyncAll;
    var t', objs := SyncAll(t, id, vs, geo), geo(vs[i]);
    forall g | g in objs ensures g.uuid in t' && t'[g.uuid] == g {
      ObjectOfUuid(id, vs, geo, i, g);
      ObjectArrives(t, id, vs, geo, i, g.uuid);
    }
    forall u | u in t' && t'[u].mapId == id && t'[u].version == vs[i] ensures t'[u] in objs {
      RowEndsRight(t, u, id, vs, geo, i);
      assert u in ById(objs) && ById(objs)[u] in objs;
      ObjectArrives(t, id, vs, geo, i, u);
    }
  }
}
