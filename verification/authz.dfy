/** Who may see and change which map: the single-map checks, the listing query, and how they relate. */
module Authz {
  import opened StoreModel
  import opened Wrappers
  import C = Coherence
  import Lists
  import S = Store

  /** The acting user, and the API key the request came in with, if any. */
  datatype Request = Request(user: User, key: Option<KeyId>)

  /** Why a check could not be made: the user has no permissions row, or the key is unknown or revoked. */
  datatype Failure = NoPermissions | InvalidKey

  type Check = Result<bool, Failure>

  // ----- The checks, on the tables -----

  function KeyAllows(t: Tables, key: Option<KeyId>, m: MapId): Check {
    if key == None then Ok(true)
    else
      match S.ScopeOnTables(t, key.value, m)
      case None => Err(InvalidKey)
      case Some(None) => Ok(true)
      case Some(Some(entry)) => Ok(entry.inScope)
  }

  function UserCanView(t: Tables, u: User, m: MapId): Check
    requires m in t.maps
  {
    if t.maps[m].visibleToAll || t.maps[m].owner == u then Ok(true)
    else
      match GlobalPermissions(t, u)
      case None => Err(NoPermissions)
      case Some(p) => Ok(p.GrantsMapVisibility() || GrantOf(t, m, u).GrantsVisibility())
  }

  function CanView(t: Tables, req: Request, m: MapId): Check
    requires m in t.maps
  {
    if UserCanView(t, req.user, m) == Ok(true) then KeyAllows(t, req.key, m) else UserCanView(t, req.user, m)
  }

  /** The rights requireMapPermission is called with, as a pair of a global and a per-map flag. */
  datatype Right = Edit | Delete | EditGeo | DeleteGeo | Upload

  predicate Globally(p: Permissions, right: Right) {
    match right
    case Edit => p.canEdit
    case Delete => p.canDelete
    case EditGeo => p.canEditGeo
    case DeleteGeo => p.canDeleteGeo
    case Upload => p.canCreate
  }

  predicate OnMap(grant: MapPermission, right: Right) {
    match right
    case Edit => grant.canEdit
    case Delete => grant.canDelete
    case EditGeo => grant.canEditGeo
    case DeleteGeo => grant.canDeleteGeo
    case Upload => grant.canEdit
  }

  function May(t: Tables, req: Request, m: MapId, right: Right): Check {
    match GlobalPermissions(t, req.user)
    case None => Err(NoPermissions)
    case Some(p) =>
      if p.isAdmin || Globally(p, right) || (m in t.maps && t.maps[m].owner == req.user) || OnMap(GrantOf(t, m, req.user), right)
      then KeyAllows(t, req.key, m)
      else Ok(false)
  }

  // ----- The checks, as the program makes them -----

  /** apiKeyMapAllowed, through APIKeyCanAccessMap. */
  method ApiKeyMapAllowed(st: S.Store, key: Option<KeyId>, m: MapId) returns (r: Check)
    requires C.Coherent(st.State())
    modifies st`cache
    ensures r == KeyAllows(st.db, key, m) && C.Coherent(st.State())
  {
    hide C.Coherent, Apply;
    if key == None { return Ok(true); }
    S.CoherentAnswers(st.State(), m, "", "", key.value);
    LookupIsSafe(st.State(), ResolveScope(key.value, m));
    var scope := st.ResolveAPIKeyMapScope(key.value, m);
    if scope == None { return Err(InvalidKey); }
    if scope.value == None { return Ok(true); }
    return Ok(scope.value.value.inScope);
  }

  method UserCanViewMap(st: S.Store, m: MapId, row: MapRow, u: User) returns (r: Check)
    requires C.Coherent(st.State()) && m in st.db.maps && st.db.maps[m] == row
    modifies st`cache
    ensures r == UserCanView(st.db, u, m) && C.Coherent(st.State())
  {
    hide C.Coherent, Apply, GlobalPermissions, GrantOf;
    if row.visibleToAll || row.owner == u { return Ok(true); }
    S.CoherentAnswers(st.State(), m, u, "", 0);
    LookupIsSafe(st.State(), Op.GetPermissions(u));
    var p := st.GetPermissions(u);
    if p == None { return Err(NoPermissions); }
    if p.value.GrantsMapVisibility() { return Ok(true); }
    S.CoherentAnswers(st.State(), m, u, "", 0);
    LookupIsSafe(st.State(), Op.GetMapPermission(m, u));
    var grant := st.GetMapPermission(m, u);
    return Ok(grant.GrantsVisibility());
  }

  method CanViewMap(st: S.Store, m: MapId, row: MapRow, req: Request) returns (r: Check)
    requires C.Coherent(st.State()) && m in st.db.maps && st.db.maps[m] == row
    modifies st`cache
    ensures r == CanView(st.db, req, m) && C.Coherent(st.State())
  {
    hide C.Coherent;
    r := UserCanViewMap(st, m, row, req.user);
    if r != Ok(true) { return; }
    r := ApiKeyMapAllowed(st, req.key, m);
  }

  /** ownerOrMapAllowed; a map that does not exist has no owner, and that is no error here. */
  method OwnerOrMapAllowed(st: S.Store, m: MapId, u: User, right: Right) returns (allowed: bool)
    requires C.Coherent(st.State())
    modifies st`cache
    ensures allowed == ((m in st.db.maps && st.db.maps[m].owner == u) || OnMap(GrantOf(st.db, m, u), right))
    ensures C.Coherent(st.State())
  {
    hide C.Coherent, Apply, GlobalPermissions, GrantOf;
    S.CoherentAnswers(st.State(), m, u, "", 0);
    LookupIsSafe(st.State(), Op.GetMap(m));
    var row := st.GetMap(m);
    if row.Some? && row.value.owner == u { return true; }
    S.CoherentAnswers(st.State(), m, u, "", 0);
    LookupIsSafe(st.State(), Op.GetMapPermission(m, u));
    var grant := st.GetMapPermission(m, u);
    return OnMap(grant, right);
  }

  method RequireMapPermission(st: S.Store, req: Request, m: MapId, right: Right) returns (r: Check)
    requires C.Coherent(st.State())
    modifies st`cache
    ensures r == May(st.db, req, m, right) && C.Coherent(st.State())
  {
    hide C.Coherent, Apply, GlobalPermissions, GrantOf;
    S.CoherentAnswers(st.State(), m, req.user, "", 0);
    LookupIsSafe(st.State(), Op.GetPermissions(req.user));
    var p := st.GetPermissions(req.user);
    if p == None { return Err(NoPermissions); }
    if !p.value.isAdmin && !Globally(p.value, right) {
      var allowed := OwnerOrMapAllowed(st, m, req.user, right);
      if !allowed { return Ok(false); }
    }
    r := ApiKeyMapAllowed(st, req.key, m);
  }

  lemma LookupIsSafe(s: State, op: Op)
    requires C.IsLookup(op) && C.Coherent(s)
    ensures C.Coherent(Apply(s, op)) && Apply(s, op).db == s.db
  {
    hide C.Coherent;
    C.LookupsChangeNoTable(s, op);
    C.CallsKeepCoherent(s, op);
  }

  // ----- The listing -----

  /** The WHERE clause of ListMaps, row by row. */
  predicate Listed(t: Tables, u: User, bypass: bool, m: MapId)
    requires m in t.maps
  {
    || bypass
    || t.maps[m].visibleToAll
    || t.maps[m].owner == u
    || ((m, u) in t.mapPerms && t.mapPerms[(m, u)].GrantsVisibility())
    || exists gm | gm in t.members ::
         gm.1 == u && (m, gm.0) in t.groupPerms && t.groupPerms[(m, gm.0)].GrantsVisibility()
  }

  /** ListMaps without a filter, in some order. */
  method ListMaps(st: S.Store, u: User, bypass: bool) returns (maps: seq<MapId>)
    ensures Lists.Distinct(maps)
    ensures forall m :: m in maps <==> m in st.db.maps && Listed(st.db, u, bypass, m)
  {
    hide Listed;
    maps := [];
    var rest := st.db.maps.Keys;
    while rest != {}
      invariant rest <= st.db.maps.Keys && Lists.Distinct(maps)
      invariant forall m :: m in maps <==> m in st.db.maps && m !in rest && Listed(st.db, u, bypass, m)
      decreases |rest|
    {
      var m :| m in rest;
      rest := rest - {m};
      if Listed(st.db, u, bypass, m) { maps := maps + [m]; }
    }
  }

  function Passes(t: Tables, key: Option<KeyId>): MapId -> bool {
    (m: MapId) => KeyAllows(t, key, m) == Ok(true)
  }

  /** filterMapsByAPIKeyScope: one map that cannot be checked fails the whole listing. */
  method FilterMapsByAPIKeyScope(st: S.Store, key: Option<KeyId>, maps: seq<MapId>) returns (r: Result<seq<MapId>, Failure>)
    requires C.Coherent(st.State())
    modifies st`cache
    ensures C.Coherent(st.State())
    ensures r == if forall m | m in maps :: KeyAllows(st.db, key, m).Ok? then Ok(Lists.Filter(maps, Passes(st.db, key))) else Err(InvalidKey)
  {
    hide C.Coherent, KeyAllows, Passes;
    if key == None {
      WithoutKeyAllPass(st.db, maps);
      return Ok(maps);
    }
    var filtered := [];
    for i := 0 to |maps|
      invariant C.Coherent(st.State())
      invariant filtered == Lists.Filter(maps[..i], Passes(st.db, key))
      invariant forall j | 0 <= j < i :: KeyAllows(st.db, key, maps[j]).Ok?
    {
      OneMorePasses(st.db, key, maps, i);
      var allowed := ApiKeyMapAllowed(st, key, maps[i]);
      if allowed.Err? {
        assert maps[i] in maps;
        KeysFailOneWay(st.db, key, maps[i]);
        return Err(allowed.error);
      }
      if allowed.value { filtered := filtered + [maps[i]]; }
    }
    assert maps[..|maps|] == maps;
    return Ok(filtered);
  }

  lemma WithoutKeyAllPass(t: Tables, maps: seq<MapId>)
    ensures Lists.Filter(maps, Passes(t, None)) == maps
    ensures forall m :: KeyAllows(t, None, m).Ok?
  {
    Lists.FilterEverything(maps, Passes(t, None));
  }

  lemma OneMorePasses(t: Tables, key: Option<KeyId>, maps: seq<MapId>, i: nat)
    requires i < |maps|
    ensures Lists.Filter(maps[..i + 1], Passes(t, key))
            == Lists.Filter(maps[..i], Passes(t, key)) + if KeyAllows(t, key, maps[i]) == Ok(true) then [maps[i]] else []
  {
    hide KeyAllows;
    Lists.FilterSnoc(maps, Passes(t, key), i);
  }

  lemma KeysFailOneWay(t: Tables, key: Option<KeyId>, m: MapId)
    requires KeyAllows(t, key, m).Err?
    ensures KeyAllows(t, key, m) == Err(InvalidKey)
  {
  }

  /** Any flag set in the OR of the rows is any flag set in one of the rows. */
  lemma AnyFlagCommutes(t: Tables, m: MapId, u: User)
    ensures GrantOf(t, m, u).GrantsVisibility() <==> exists r :: r in GrantRows(t, m, u) && r.GrantsVisibility()
  {
    var rows := GrantRows(t, m, u);
    if GrantOf(t, m, u).GrantsVisibility() {
      var r :| r in rows && (r.canView || r.canEdit || r.canDelete || r.canEditGeo || r.canDeleteGeo);
    }
  }

  /** The query and the single-map check agree on every map. */
  lemma QueryAgreesWithCheck(t: Tables, u: User, m: MapId)
    requires m in t.maps && GlobalPermissions(t, u).Some?
    ensures Listed(t, u, GlobalPermissions(t, u).value.GrantsMapVisibility(), m) <==> UserCanView(t, u, m) == Ok(true)
  {
    AnyFlagCommutes(t, m, u);
    hide GlobalPermissions, GrantOf;
    var byGroup := exists gm | gm in t.members ::
      gm.1 == u && (m, gm.0) in t.groupPerms && t.groupPerms[(m, gm.0)].GrantsVisibility();
    var rows := GrantRows(t, m, u);
    if byGroup {
      var gm :| gm in t.members && gm.1 == u && (m, gm.0) in t.groupPerms && t.groupPerms[(m, gm.0)].GrantsVisibility();
      assert t.groupPerms[(m, gm.0)] in rows;
    }
    if (m, u) in t.mapPerms { assert t.mapPerms[(m, u)] in rows; }
  }

  /** GET /maps without filters: it lists exactly the maps for which the single-map check succeeds, and
      fails only if the user has no permissions row or the key cannot be checked on a map in question. */
  method MapsList(st: S.Store, req: Request) returns (r: Result<seq<MapId>, Failure>)
    requires C.Coherent(st.State())
    modifies st`cache
    ensures C.Coherent(st.State())
    ensures r.Ok? ==> forall m :: m in r.value <==> m in st.db.maps && CanView(st.db, req, m) == Ok(true)
    ensures r.Err? <==> GlobalPermissions(st.db, req.user) == None
                        || exists m :: m in st.db.maps && CanView(st.db, req, m) == Err(InvalidKey)
  {
    hide C.Coherent, Apply, Listed, GlobalPermissions, UserCanView, KeyAllows;
    S.CoherentAnswers(st.State(), 0, req.user, "", 0);
    LookupIsSafe(st.State(), Op.GetPermissions(req.user));
    var p := st.GetPermissions(req.user);
    if p == None { return Err(NoPermissions); }
    var maps := ListMaps(st, req.user, p.value.GrantsMapVisibility());
    forall m | m in st.db.maps ensures m in maps <==> UserCanView(st.db, req.user, m) == Ok(true) {
      QueryAgreesWithCheck(st.db, req.user, m);
    }
    ListedThenScoped(st.db, req, maps);
    r := FilterMapsByAPIKeyScope(st, req.key, maps);
  }

  lemma ListedThenScoped(t: Tables, req: Request, maps: seq<MapId>)
    requires GlobalPermissions(t, req.user).Some? && forall m | m in maps :: m in t.maps
    requires forall m | m in t.maps :: m in maps <==> UserCanView(t, req.user, m) == Ok(true)
    ensures forall m :: m in t.maps && CanView(t, req, m) == Ok(true) <==> m in maps && KeyAllows(t, req.key, m) == Ok(true)
    ensures forall m :: m in t.maps && CanView(t, req, m) == Err(InvalidKey) <==> m in maps && KeyAllows(t, req.key, m).Err?
  {
    hide GlobalPermissions, GrantOf;
    assert forall m | m in t.maps :: UserCanView(t, req.user, m).Ok?;
  }

  // ----- Rights and visibility -----

  /** Whoever may edit or delete a map or its geo objects may see it, with the same request. */
  lemma RightsImplyView(t: Tables, req: Request, m: MapId, right: Right)
    requires m in t.maps && right != Upload && May(t, req, m, right) == Ok(true)
    ensures CanView(t, req, m) == Ok(true)
  {
    hide GlobalPermissions, GrantOf, KeyAllows;
  }

  /** Uploading to a map one may not see is possible exactly for someone whose only global flag is create,
      on a private map of someone else's on which nothing is granted to them, with a key, if any, that
      admits the map. */
  lemma UploadWithoutViewIff(t: Tables, req: Request, m: MapId)
    requires m in t.maps
    ensures May(t, req, m, Upload) == Ok(true) && CanView(t, req, m) != Ok(true) <==>
              && KeyAllows(t, req.key, m) == Ok(true)
              && GlobalPermissions(t, req.user).Some?
              && GlobalPermissions(t, req.user).value == Permissions(true, false, false, false, false, false, false)
              && !t.maps[m].visibleToAll && t.maps[m].owner != req.user
              && GrantOf(t, m, req.user) == MapPermission(false, false, false, false, false)
  {
    hide GlobalPermissions, GrantOf, KeyAllows;
  }

  // ----- The checks, column by column -----

  /** The user's own row or that of a group it belongs to has the flag. */
  ghost predicate SomeRow(t: Tables, u: User, flag: Permissions -> bool) {
    (u in t.users && flag(t.users[u])) || exists g :: (g, u) in t.members && g in t.groups && flag(t.groups[g])
  }

  ghost predicate SomeGrant(t: Tables, m: MapId, u: User, flag: MapPermission -> bool) {
    || ((m, u) in t.mapPerms && flag(t.mapPerms[(m, u)]))
    || exists g :: (g, u) in t.members && (m, g) in t.groupPerms && flag(t.groupPerms[(m, g)])
  }

  /** There is no key, or it is active and, if scoped, has an entry for the map. */
  ghost predicate KeyAdmits(t: Tables, key: Option<KeyId>, m: MapId) {
    key.Some? ==> key.value in t.keys && !t.keys[key.value].revoked && (t.keys[key.value].scoped ==> (key.value, m) in t.scopes)
  }

  lemma RowsWith(t: Tables, u: User, flag: Permissions -> bool)
    ensures (exists r :: r in GlobalRows(t, u) && flag(r)) <==> SomeRow(t, u, flag)
  {
    if r :| r in GlobalRows(t, u) && flag(r) {
      if gm :| gm in t.members && gm.1 == u && gm.0 in t.groups && t.groups[gm.0] == r {
        assert (gm.0, u) in t.members;
      }
    }
    if SomeRow(t, u, flag) {
      if u in t.users && flag(t.users[u]) {
        assert t.users[u] in GlobalRows(t, u);
      } else {
        var g :| (g, u) in t.members && g in t.groups && flag(t.groups[g]);
        assert (g, u).0 == g && (g, u).1 == u;
        assert t.groups[g] in GlobalRows(t, u);
      }
    }
  }

  lemma GrantsWith(t: Tables, m: MapId, u: User, flag: MapPermission -> bool)
    ensures (exists r :: r in GrantRows(t, m, u) && flag(r)) <==> SomeGrant(t, m, u, flag)
  {
    if r :| r in GrantRows(t, m, u) && flag(r) {
      if gm :| gm in t.members && gm.1 == u && (m, gm.0) in t.groupPerms && t.groupPerms[(m, gm.0)] == r {
        assert (gm.0, u) in t.members;
      }
    }
    if SomeGrant(t, m, u, flag) {
      if (m, u) in t.mapPerms && flag(t.mapPerms[(m, u)]) {
        assert t.mapPerms[(m, u)] in GrantRows(t, m, u);
      } else {
        var g :| (g, u) in t.members && (m, g) in t.groupPerms && flag(t.groupPerms[(m, g)]);
        assert (g, u).0 == g && (g, u).1 == u;
        assert t.groupPerms[(m, g)] in GrantRows(t, m, u);
      }
    }
  }

  /** The global permissions exist if some row does, and each flag is the OR of its own column. */
  lemma GlobalColumns(t: Tables, u: User)
    ensures GlobalPermissions(t, u).Some? <==> SomeRow(t, u, (p: Permissions) => true)
    ensures var p := GlobalPermissions(t, u);
            p.Some? ==>
              && (p.value.canCreate <==> SomeRow(t, u, (p: Permissions) => p.canCreate))
              && (p.value.canEdit <==> SomeRow(t, u, (p: Permissions) => p.canEdit))
              && (p.value.canDelete <==> SomeRow(t, u, (p: Permissions) => p.canDelete))
              && (p.value.canEditGeo <==> SomeRow(t, u, (p: Permissions) => p.canEditGeo))
              && (p.value.canDeleteGeo <==> SomeRow(t, u, (p: Permissions) => p.canDeleteGeo))
              && (p.value.canViewAll <==> SomeRow(t, u, (p: Permissions) => p.canViewAll))
              && (p.value.isAdmin <==> SomeRow(t, u, (p: Permissions) => p.isAdmin))
  {
    RowsWith(t, u, (p: Permissions) => true);
    RowsWith(t, u, (p: Permissions) => p.canCreate);
    RowsWith(t, u, (p: Permissions) => p.canEdit);
    RowsWith(t, u, (p: Permissions) => p.canDelete);
    RowsWith(t, u, (p: Permissions) => p.canEditGeo);
    RowsWith(t, u, (p: Permissions) => p.canDeleteGeo);
    RowsWith(t, u, (p: Permissions) => p.canViewAll);
    RowsWith(t, u, (p: Permissions) => p.isAdmin);
    hide SomeRow, GlobalRows;
  }

  lemma GrantColumns(t: Tables, m: MapId, u: User)
    ensures var g := GrantOf(t, m, u);
            && (g.canView <==> SomeGrant(t, m, u, (g: MapPermission) => g.canView))
            && (g.canEdit <==> SomeGrant(t, m, u, (g: MapPermission) => g.canEdit))
            && (g.canDelete <==> SomeGrant(t, m, u, (g: MapPermission) => g.canDelete))
            && (g.canEditGeo <==> SomeGrant(t, m, u, (g: MapPermission) => g.canEditGeo))
            && (g.canDeleteGeo <==> SomeGrant(t, m, u, (g: MapPermission) => g.canDeleteGeo))
  {
    GrantsWith(t, m, u, (g: MapPermission) => g.canView);
    GrantsWith(t, m, u, (g: MapPermission) => g.canEdit);
    GrantsWith(t, m, u, (g: MapPermission) => g.canDelete);
    GrantsWith(t, m, u, (g: MapPermission) => g.canEditGeo);
    GrantsWith(t, m, u, (g: MapPermission) => g.canDeleteGeo);
    hide SomeGrant, GrantRows;
  }

  lemma KeyAdmitsIff(t: Tables, key: Option<KeyId>, m: MapId)
    ensures KeyAllows(t, key, m) == Ok(true) <==> KeyAdmits(t, key, m)
    ensures KeyAllows(t, key, m).Err? <==> key.Some? && !(key.value in t.keys && !t.keys[key.value].revoked)
  {
  }

  /** Each right takes the global flag of its own column or admin, the map, or a grant of its own column,
      and a key, if any, that admits the map. */
  lemma MayByColumns(t: Tables, req: Request, m: MapId)
    ensures var u, owner := req.user, m in t.maps && t.maps[m].owner == req.user;
            var ready := KeyAdmits(t, req.key, m) && SomeRow(t, u, (p: Permissions) => true);
            var mine := owner || SomeRow(t, u, (p: Permissions) => p.isAdmin);
            && (May(t, req, m, Edit) == Ok(true) <==>
                  ready && (mine || SomeRow(t, u, (p: Permissions) => p.canEdit) || SomeGrant(t, m, u, (g: MapPermission) => g.canEdit)))
            && (May(t, req, m, Delete) == Ok(true) <==>
                  ready && (mine || SomeRow(t, u, (p: Permissions) => p.canDelete) || SomeGrant(t, m, u, (g: MapPermission) => g.canDelete)))
            && (May(t, req, m, EditGeo) == Ok(true) <==>
                  ready && (mine || SomeRow(t, u, (p: Permissions) => p.canEditGeo) || SomeGrant(t, m, u, (g: MapPermission) => g.canEditGeo)))
            && (May(t, req, m, DeleteGeo) == Ok(true) <==>
                  ready && (mine || SomeRow(t, u, (p: Permissions) => p.canDeleteGeo) || SomeGrant(t, m, u, (g: MapPermission) => g.canDeleteGeo)))
            && (May(t, req, m, Upload) == Ok(true) <==>
                  ready && (mine || SomeRow(t, u, (p: Permissions) => p.canCreate) || SomeGrant(t, m, u, (g: MapPermission) => g.canEdit)))
  {
    GlobalColumns(t, req.user);
    GrantColumns(t, m, req.user);
    KeyAdmitsIff(t, req.key, m);
    hide GlobalPermissions, GrantOf, KeyAllows, KeyAdmits, SomeRow, SomeGrant;
  }

  /** Someone with no more than the right to see a map, by whatever grants, may do nothing to it. */
  lemma ViewGrantsNothingElse(t: Tables, req: Request, m: MapId, right: Right)
    requires !(m in t.maps && t.maps[m].owner == req.user)
    requires req.user in t.users ==> t.users[req.user] == Permissions(false, false, false, false, false, t.users[req.user].canViewAll, false)
    requires forall g | (g, req.user) in t.members && g in t.groups ::
               t.groups[g] == Permissions(false, false, false, false, false, t.groups[g].canViewAll, false)
    requires (m, req.user) in t.mapPerms ==>
               t.mapPerms[(m, req.user)] == MapPermission(t.mapPerms[(m, req.user)].canView, false, false, false, false)
    requires forall g | (g, req.user) in t.members && (m, g) in t.groupPerms ::
               t.groupPerms[(m, g)] == MapPermission(t.groupPerms[(m, g)].canView, false, false, false, false)
    ensures May(t, req, m, right) != Ok(true)
  {
    MayByColumns(t, req, m);
    hide May, KeyAdmits;
  }

  /** A map is seen by everyone if it is visible to all, by its owner, by whoever has any global flag but
      create, and by whoever has any grant on it, given a key, if any, that admits it. */
  lemma CanViewByColumns(t: Tables, req: Request, m: MapId)
    requires m in t.maps
    ensures CanView(t, req, m) == Ok(true) <==>
              && KeyAdmits(t, req.key, m)
              && (|| t.maps[m].visibleToAll || t.maps[m].owner == req.user
                  || SomeRow(t, req.user, (p: Permissions) =>
                       p.isAdmin || p.canEdit || p.canDelete || p.canEditGeo || p.canDeleteGeo || p.canViewAll)
                  || (SomeRow(t, req.user, (p: Permissions) => true)
                      && SomeGrant(t, m, req.user, (g: MapPermission) =>
                           g.canView || g.canEdit || g.canDelete || g.canEditGeo || g.canDeleteGeo)))
  {
    var any := (p: Permissions) => p.isAdmin || p.canEdit || p.canDelete || p.canEditGeo || p.canDeleteGeo || p.canViewAll;
    var some := (g: MapPermission) => g.canView || g.canEdit || g.canDelete || g.canEditGeo || g.canDeleteGeo;
    KeyAdmitsIff(t, req.key, m);
    RowsWith(t, req.user, any);
    RowsWith(t, req.user, (p: Permissions) => true);
    GrantsWith(t, m, req.user, some);
    if GlobalPermissions(t, req.user).Some? { AnyGlobalFlag(t, req.user); }
    AnyFlagCommutes(t, m, req.user);
    hide KeyAllows, KeyAdmits, SomeRow, SomeGrant, GrantRows, GrantOf, GlobalRows, OrFlags;
  }

  lemma AnyGlobalFlag(t: Tables, u: User)
    requires GlobalPermissions(t, u).Some?
    ensures GlobalPermissions(t, u).value.GrantsMapVisibility() <==>
              exists p :: p in GlobalRows(t, u)
                          && (p.isAdmin || p.canEdit || p.canDelete || p.canEditGeo || p.canDeleteGeo || p.canViewAll)
  {
    hide GlobalRows;
  }

  // ----- More grants never refuse more -----

  predicate FewerFlags(p: Permissions, q: Permissions) {
    && (p.canCreate ==> q.canCreate) && (p.canEdit ==> q.canEdit) && (p.canDelete ==> q.canDelete)
    && (p.canEditGeo ==> q.canEditGeo) && (p.canDeleteGeo ==> q.canDeleteGeo)
    && (p.canViewAll ==> q.canViewAll) && (p.isAdmin ==> q.isAdmin)
  }

  predicate FewerGrants(p: MapPermission, q: MapPermission) {
    && (p.canView ==> q.canView) && (p.canEdit ==> q.canEdit) && (p.canDelete ==> q.canDelete)
    && (p.canEditGeo ==> q.canEditGeo) && (p.canDeleteGeo ==> q.canDeleteGeo)
  }

  /** t' has every user, group, membership and grant of t, each with at least the flags it has there,
      and the same maps, keys and scopes. */
  ghost predicate GrantsAtLeast(t: Tables, t': Tables) {
    && (forall u | u in t.users :: u in t'.users && FewerFlags(t.users[u], t'.users[u]))
    && (forall g | g in t.groups :: g in t'.groups && FewerFlags(t.groups[g], t'.groups[g]))
    && t.members <= t'.members
    && (forall mu | mu in t.mapPerms :: mu in t'.mapPerms && FewerGrants(t.mapPerms[mu], t'.mapPerms[mu]))
    && (forall mg | mg in t.groupPerms :: mg in t'.groupPerms && FewerGrants(t.groupPerms[mg], t'.groupPerms[mg]))
    && t'.maps == t.maps && t'.keys == t.keys && t'.scopes == t.scopes
  }

  lemma OrGrows(rows: set<Permissions>, rows': set<Permissions>)
    requires forall r | r in rows :: exists r' :: r' in rows' && FewerFlags(r, r')
    ensures FewerFlags(OrFlags(rows), OrFlags(rows'))
    ensures rows != {} ==> rows' != {}
  {
    if rows != {} {
      var r :| r in rows;
      var r' :| r' in rows' && FewerFlags(r, r');
    }
  }

  lemma OrGrantsGrows(rows: set<MapPermission>, rows': set<MapPermission>)
    requires forall r | r in rows :: exists r' :: r' in rows' && FewerGrants(r, r')
    ensures FewerGrants(OrGrants(rows), OrGrants(rows'))
  {
  }

  lemma PermissionsGrow(t: Tables, t': Tables, u: User)
    requires GrantsAtLeast(t, t') && GlobalPermissions(t, u).Some?
    ensures GlobalPermissions(t', u).Some? && FewerFlags(GlobalPermissions(t, u).value, GlobalPermissions(t', u).value)
  {
    hide FewerFlags, FewerGrants, OrFlags;
    var rows, rows' := GlobalRows(t, u), GlobalRows(t', u);
    forall r | r in rows ensures exists r' :: r' in rows' && FewerFlags(r, r') {
      if u in t.users && r == t.users[u] {
        assert t'.users[u] in rows';
      } else {
        var gm :| gm in t.members && gm.1 == u && gm.0 in t.groups && t.groups[gm.0] == r;
        assert gm in t'.members && t'.groups[gm.0] in rows';
      }
    }
    OrGrows(rows, rows');
  }

  lemma GrantsGrow(t: Tables, t': Tables, m: MapId, u: User)
    requires GrantsAtLeast(t, t')
    ensures FewerGrants(GrantOf(t, m, u), GrantOf(t', m, u))
  {
    hide FewerFlags, FewerGrants, OrGrants;
    var rows, rows' := GrantRows(t, m, u), GrantRows(t', m, u);
    forall r | r in rows ensures exists r' :: r' in rows' && FewerGrants(r, r') {
      if (m, u) in t.mapPerms && r == t.mapPerms[(m, u)] {
        assert t'.mapPerms[(m, u)] in rows';
      } else {
        var gm :| gm in t.members && gm.1 == u && (m, gm.0) in t.groupPerms && t.groupPerms[(m, gm.0)] == r;
        assert gm in t'.members && t'.groupPerms[(m, gm.0)] in rows';
      }
    }
    OrGrantsGrows(rows, rows');
  }

  lemma MayGrows(t: Tables, t': Tables, req: Request, m: MapId, right: Right)
    requires GrantsAtLeast(t, t') && May(t, req, m, right) == Ok(true)
    ensures May(t', req, m, right) == Ok(true)
  {
    hide GlobalPermissions, GrantOf, S.ScopeOnTables;
    PermissionsGrow(t, t', req.user);
    GrantsGrow(t, t', m, req.user);
    SameKeys(t, t', req.key, m);
    hide GrantsAtLeast, KeyAllows;
  }

  lemma ViewGrows(t: Tables, t': Tables, req: Request, m: MapId)
    requires GrantsAtLeast(t, t') && m in t.maps && CanView(t, req, m) == Ok(true)
    ensures CanView(t', req, m) == Ok(true)
  {
    hide GlobalPermissions, GrantOf, S.ScopeOnTables;
    if GlobalPermissions(t, req.user).Some? { PermissionsGrow(t, t', req.user); }
    GrantsGrow(t, t', m, req.user);
    SameKeys(t, t', req.key, m);
    hide GrantsAtLeast, KeyAllows;
  }

  lemma SameKeys(t: Tables, t': Tables, key: Option<KeyId>, m: MapId)
    requires GrantsAtLeast(t, t')
    ensures KeyAllows(t', key, m) == KeyAllows(t, key, m) && t'.maps == t.maps
  {
    hide FewerFlags, FewerGrants;
  }

  /** Adding a grant, a membership or a flag turns no allowed request into a refused one. */
  lemma GrantsNeverRefuse(t: Tables, op: Op, req: Request, m: MapId, right: Right)
    requires OnlyAdds(t, op)
    ensures var t' := TablesAfter(t, op);
            && (May(t, req, m, right) == Ok(true) ==> May(t', req, m, right) == Ok(true))
            && (m in t.maps && CanView(t, req, m) == Ok(true) ==> m in t'.maps && CanView(t', req, m) == Ok(true))
  {
    hide May, CanView, OnlyAdds;
    var t' := TablesAfter(t, op);
    AddingGrantsAtLeast(t, op);
    hide TablesAfter;
    SameKeys(t, t', req.key, m);
    hide GrantsAtLeast;
    if May(t, req, m, right) == Ok(true) { MayGrows(t, t', req, m, right); }
    if m in t.maps && CanView(t, req, m) == Ok(true) { ViewGrows(t, t', req, m); }
  }

  /** The calls that only add. */
  predicate OnlyAdds(t: Tables, op: Op) {
    match op
    case CreateUser(_, _) => true
    case UpdateUser(u, p, _) => u in t.users ==> FewerFlags(t.users[u], p)
    case CreateGroup(_, _) => true
    case UpdateGroup(g, p, _) => g in t.groups ==> FewerFlags(t.groups[g], p)
    case ReplaceMembership(u, gs) => forall gm | gm in t.members :: gm.1 == u ==> gm.0 in gs
    case SetMapPermission(m, u, grant) => (m, u) in t.mapPerms ==> FewerGrants(t.mapPerms[(m, u)], grant)
    case SetGroupMapPermission(m, g, grant) => (m, g) in t.groupPerms ==> FewerGrants(t.groupPerms[(m, g)], grant)
    case _ => C.IsLookup(op)
  }

  lemma FlagsOfItself()
    ensures forall p: Permissions :: FewerFlags(p, p)
  {
  }

  lemma SameUsers(t: Tables, op: Op)
    requires OnlyAdds(t, op) && !op.CreateUser? && !op.UpdateUser?
    ensures UsersAfter(t, op) == t.users
  {
    hide FewerGrants, FewerFlags;
  }

  lemma SameGroups(t: Tables, op: Op)
    requires OnlyAdds(t, op) && !op.CreateGroup? && !op.UpdateGroup?
    ensures GroupsAfter(t, op) == t.groups
  {
    hide FewerGrants, FewerFlags;
  }

  lemma AddingKeepsUserFlags(t: Tables, op: Op)
    requires OnlyAdds(t, op) && Commits(t, op)
    ensures forall u | u in t.users :: u in UsersAfter(t, op) && FewerFlags(t.users[u], UsersAfter(t, op)[u])
  {
    hide FewerGrants, FewerFlags;
    FlagsOfItself();
    if !op.CreateUser? && !op.UpdateUser? {
      SameUsers(t, op);
      hide UsersAfter;
    }
  }

  lemma AddingKeepsGroupFlags(t: Tables, op: Op)
    requires OnlyAdds(t, op) && Commits(t, op)
    ensures forall g | g in t.groups :: g in GroupsAfter(t, op) && FewerFlags(t.groups[g], GroupsAfter(t, op)[g])
  {
    hide FewerGrants, FewerFlags;
    FlagsOfItself();
    if !op.CreateGroup? && !op.UpdateGroup? {
      SameGroups(t, op);
      hide GroupsAfter;
    }
  }

  lemma AddingKeepsMembers(t: Tables, op: Op)
    requires OnlyAdds(t, op) && Commits(t, op)
    ensures t.members <= MembersAfter(t, op)
  {
    hide Commits, FewerFlags, FewerGrants;
    assert forall gm: (GroupId, User) | gm in t.members :: gm == (gm.0, gm.1);
  }

  lemma AddingKeepsUserGrants(t: Tables, op: Op)
    requires OnlyAdds(t, op)
    ensures forall mu | mu in t.mapPerms :: mu in MapPermsAfter(t, op) && FewerGrants(t.mapPerms[mu], MapPermsAfter(t, op)[mu])
  {
    hide FewerFlags;
    assert !op.SetMapPermission? ==> MapPermsAfter(t, op) == t.mapPerms;
  }

  lemma AddingKeepsGroupGrants(t: Tables, op: Op)
    requires OnlyAdds(t, op)
    ensures forall mg | mg in t.groupPerms :: mg in GroupPermsAfter(t, op) && FewerGrants(t.groupPerms[mg], GroupPermsAfter(t, op)[mg])
  {
    hide FewerFlags;
    assert !op.SetGroupMapPermission? ==> GroupPermsAfter(t, op) == t.groupPerms;
  }

  lemma AddingKeepsMaps(t: Tables, op: Op)
    requires OnlyAdds(t, op) && Commits(t, op)
    ensures MapsAfter(t, op) == t.maps
  {
    hide Commits, FewerFlags, FewerGrants;
  }

  lemma AddingKeepsKeys(t: Tables, op: Op)
    requires OnlyAdds(t, op) && Commits(t, op)
    ensures KeysAfter(t, op) == t.keys
  {
    hide Commits, FewerFlags, FewerGrants;
  }

  lemma AddingKeepsScopes(t: Tables, op: Op)
    requires OnlyAdds(t, op)
    ensures ScopesAfter(t, op) == t.scopes
  {
    hide FewerFlags, FewerGrants;
  }

  lemma AddingGrantsAtLeast(t: Tables, op: Op)
    requires OnlyAdds(t, op)
    ensures GrantsAtLeast(t, TablesAfter(t, op))
  {
    hide OnlyAdds, Commits, FewerFlags, FewerGrants;
    if Commits(t, op) {
      AddingKeepsUserFlags(t, op);
      AddingKeepsGroupFlags(t, op);
      AddingKeepsMembers(t, op);
      AddingKeepsUserGrants(t, op);
      AddingKeepsGroupGrants(t, op);
      AddingKeepsMaps(t, op);
      AddingKeepsKeys(t, op);
      AddingKeepsScopes(t, op);
      hide UsersAfter, GroupsAfter, MembersAfter, MapsAfter, VersionsAfter, AliasesAfter, MapPermsAfter, GroupPermsAfter;
      hide KeysAfter, ScopesAfter;
    } else {
      SameFlags(t);
    }
  }

  lemma SameFlags(t: Tables)
    ensures GrantsAtLeast(t, t)
  {
  }
}
