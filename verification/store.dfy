/** The store's methods, as the program runs them: a lookup consults its cache, then the tables, then
    fills the cache; a writer runs its statement and then invalidates or clears. */
module Store {
  import opened StoreModel
  import opened Wrappers
  import C = Coherence
  import Lists

  // ----- What a lookup answers -----

  function MapAnswer(s: State, m: MapId): Option<MapRow> {
    if m in s.cache.maps then Some(s.cache.maps[m]) else if m in s.db.maps then Some(s.db.maps[m]) else None
  }

  function CurrentAnswer(s: State, m: MapId): Option<string> {
    if m in s.cache.currents then Some(s.cache.currents[m]) else if m in s.db.maps then Some(s.db.maps[m].current) else None
  }

  function PermissionsAnswer(s: State, u: User): Option<Permissions> {
    if u in s.cache.perms then Some(s.cache.perms[u]) else GlobalPermissions(s.db, u)
  }

  function GrantAnswer(s: State, m: MapId, u: User): MapPermission {
    if (m, u) in s.cache.mapPerms then s.cache.mapPerms[(m, u)] else GrantOf(s.db, m, u)
  }

  function AliasAnswer(s: State, m: MapId, alias: string): Option<Version> {
    if (m, alias) in s.cache.aliases then Some(s.cache.aliases[(m, alias)])
    else if (m, alias) in s.db.aliases then Some(s.db.aliases[(m, alias)])
    else None
  }

  /** None is an unknown or revoked key, Some(None) an unscoped one. */
  function ScopeAnswer(s: State, k: KeyId, m: MapId): Option<Option<ScopeEntry>> {
    match ScopedFlag(s, k)
    case None => None
    case Some(false) => Some(None)
    case Some(true) =>
      Some(Some(if (k, m) in s.cache.scopes then s.cache.scopes[(k, m)] else ScopeEntryOf(s.db, k, m)))
  }

  function ScopeOnTables(t: Tables, k: KeyId, m: MapId): Option<Option<ScopeEntry>> {
    if !ActiveKey(t, k) then None
    else if !t.keys[k].scoped then Some(None)
    else Some(Some(ScopeEntryOf(t, k, m)))
  }

  /** With coherent caches a lookup answers what the tables say. */
  lemma CoherentAnswers(s: State, m: MapId, u: User, alias: string, k: KeyId)
    requires C.Coherent(s)
    ensures MapAnswer(s, m) == if m in s.db.maps then Some(s.db.maps[m]) else None
    ensures CurrentAnswer(s, m) == if m in s.db.maps then Some(s.db.maps[m].current) else None
    ensures PermissionsAnswer(s, u) == GlobalPermissions(s.db, u)
    ensures GrantAnswer(s, m, u) == GrantOf(s.db, m, u)
    ensures AliasAnswer(s, m, alias) == if (m, alias) in s.db.aliases then Some(s.db.aliases[(m, alias)]) else None
    ensures ScopeAnswer(s, k, m) == ScopeOnTables(s.db, k, m)
  {
    hide GlobalPermissions, GrantOf, Keyed;
    assert C.EntryOk(s, C.PermissionsEntry(u)) && C.EntryOk(s, C.GrantEntry(m, u)) && C.EntryOk(s, C.AliasEntry(m, alias));
    assert C.EntryOk(s, C.KeyEntryOf(k)) && C.EntryOk(s, C.ScopeEntryFor(k, m));
  }

  // ----- The names and directory links of groups -----

  datatype Column = LdapDn | OidcClaim

  datatype GroupTag = GroupTag(name: string, dn: string, claim: string) {
    function Link(column: Column): string {
      match column
      case LdapDn => dn
      case OidcClaim => claim
    }
  }

  function SyncedTag(column: Column, value: string, name: string): GroupTag {
    match column
    case LdapDn => GroupTag(name, value, "")
    case OidcClaim => GroupTag(name, "", value)
  }

  predicate LinkedTo(tags: map<GroupId, GroupTag>, column: Column, value: string, g: GroupId) {
    g in tags && tags[g].Link(column) == value
  }

  predicate NameTaken(tags: map<GroupId, GroupTag>, name: string) {
    exists g :: g in tags && tags[g].name == name
  }

  /** The unique indexes admit this tag for g: no other group has its name or a link of it. */
  predicate Fits(tags: map<GroupId, GroupTag>, g: GroupId, tag: GroupTag) {
    forall h | h in tags && h != g ::
      && tags[h].name != tag.name
      && (tag.dn != "" ==> tags[h].dn != tag.dn)
      && (tag.claim != "" ==> tags[h].claim != tag.claim)
  }

  ghost predicate UniqueTags(tags: map<GroupId, GroupTag>) { forall g | g in tags :: Fits(tags, g, tags[g]) }

  lemma FittingKeepsUnique(tags: map<GroupId, GroupTag>, g: GroupId, tag: GroupTag)
    requires UniqueTags(tags) && Fits(tags, g, tag)
    ensures UniqueTags(tags[g := tag])
  {
    var after := tags[g := tag];
    forall h | h in after ensures Fits(after, h, after[h]) {
      if h != g { assert Fits(tags, h, tags[h]); }
    }
  }

  lemma DroppingKeepsUnique(tags: map<GroupId, GroupTag>, g: GroupId)
    requires UniqueTags(tags)
    ensures UniqueTags(tags - {g})
  {
    forall h | h in tags && h != g ensures Fits(tags - {g}, h, tags[h]) {
      assert Fits(tags, h, tags[h]);
    }
  }

  lemma OneGroupPerLink(tags: map<GroupId, GroupTag>, column: Column, value: string, g: GroupId, h: GroupId)
    requires UniqueTags(tags) && value != "" && LinkedTo(tags, column, value, g) && LinkedTo(tags, column, value, h)
    ensures g == h
  {
    assert Fits(tags, g, tags[g]);
  }

  /** For a value that no group is linked to, only the name can be in the way. */
  lemma NewGroupFitsIff(tags: map<GroupId, GroupTag>, g: GroupId, column: Column, value: string, name: string)
    requires g !in tags && value != "" && forall h :: !LinkedTo(tags, column, value, h)
    ensures Fits(tags, g, SyncedTag(column, value, name)) <==> !NameTaken(tags, name)
  {
    assert forall h | h in tags :: tags[h].Link(column) != value by {
      forall h | h in tags ensures tags[h].Link(column) != value { assert !LinkedTo(tags, column, value, h); }
    }
  }

  datatype GroupUpdate = Updated | GroupNotFound | GroupExists | RereadFailed

  /** The display name and, should it be taken, the suffix drawn for a group seen for the first time;
      drawing one may fail. */
  datatype Naming = Naming(display: string -> string, suffix: string -> Option<string>)

  /** The name an unlinked value's group is created with, if it can be. */
  function NameFor(tags: map<GroupId, GroupTag>, display: string, suffix: Option<string>): Option<string> {
    if !NameTaken(tags, display) then Some(display)
    else if suffix.Some? && !NameTaken(tags, display + "-" + suffix.value) then Some(display + "-" + suffix.value)
    else None
  }

  /** names are the distinct nonblank values. */
  ghost predicate NamesOf(values: seq<string>, names: seq<string>) {
    (forall v :: v in names <==> v in values && v != "") && Lists.Distinct(names)
  }

  ghost predicate GroupsFor(tags: map<GroupId, GroupTag>, column: Column, names: seq<string>, ids: seq<GroupId>) {
    |names| == |ids| && forall j | 0 <= j < |ids| :: LinkedTo(tags, column, names[j], ids[j])
  }

  /** Some value is linked to no group, and both names a group for it could have are taken. */
  ghost predicate Refused(tags: map<GroupId, GroupTag>, column: Column, values: seq<string>, naming: Naming) {
    exists v :: v in values && v != "" && (forall g :: !LinkedTo(tags, column, v, g))
                && NameFor(tags, naming.display(v), naming.suffix(v)) == None
  }

  /** Every group keeps its flags, name and links, and what is new grants nothing. */
  ghost predicate OnlyAdded(groups: map<GroupId, Permissions>, tags: map<GroupId, GroupTag>,
                            groups': map<GroupId, Permissions>, tags': map<GroupId, GroupTag>) {
    && (forall g | g in tags :: g in tags' && tags'[g] == tags[g])
    && (forall g | g in groups :: g in groups' && groups'[g] == groups[g])
    && (forall g | g in groups' && g !in groups :: groups'[g] == NO_PERMISSIONS)
  }

  lemma OnlyAddedTwice(groups: map<GroupId, Permissions>, tags: map<GroupId, GroupTag>,
                       groups': map<GroupId, Permissions>, tags': map<GroupId, GroupTag>,
                       groups'': map<GroupId, Permissions>, tags'': map<GroupId, GroupTag>)
    requires OnlyAdded(groups, tags, groups', tags') && OnlyAdded(groups', tags', groups'', tags'')
    ensures OnlyAdded(groups, tags, groups'', tags'')
  {
  }

  lemma NothingAdded(groups: map<GroupId, Permissions>, tags: map<GroupId, GroupTag>, column: Column)
    ensures OnlyAdded(groups, tags, groups, tags) && NamesOf([], []) && GroupsFor(tags, column, [], [])
  {
  }

  lemma OneMoreName(values: seq<string>, names: seq<string>, i: nat)
    requires i < |values| && NamesOf(values[..i], names)
    ensures NamesOf(values[..i + 1], if values[i] != "" && values[i] !in names then names + [values[i]] else names)
  {
    assert forall v :: v in values[..i + 1] <==> v in values[..i] || v == values[i];
    assert values[i] !in names ==> Lists.Distinct(names + [values[i]]);
  }

  lemma OneMoreGroup(groups: map<GroupId, Permissions>, tags: map<GroupId, GroupTag>,
                     groups': map<GroupId, Permissions>, tags': map<GroupId, GroupTag>,
                     column: Column, names: seq<string>, ids: seq<GroupId>, v: string, g: GroupId)
    requires OnlyAdded(groups, tags, groups', tags') && GroupsFor(tags, column, names, ids) && LinkedTo(tags', column, v, g)
    ensures GroupsFor(tags', column, names + [v], ids + [g])
  {
  }

  // ----- What a deletion takes along -----

  /** What is left of a table are the rows not about the deleted thing, as they were. */
  ghost predicate Without<K(!new), V>(before: map<K, V>, gone: K -> bool, after: map<K, V>) {
    && (forall k :: k in after <==> k in before && !gone(k))
    && (forall k | k in after :: after[k] == before[k])
  }

  ghost predicate MapIsGone(t: Tables, m: MapId, t': Tables) {
    && t'.users == t.users && t'.groups == t.groups && t'.members == t.members && t'.keys == t.keys
    && Without(t.maps, (n: MapId) => n == m, t'.maps)
    && (forall n, v :: (n, v) in t'.versions <==> (n, v) in t.versions && n != m)
    && Without(t.aliases, (na: (MapId, string)) => na.0 == m, t'.aliases)
    && Without(t.mapPerms, (nu: (MapId, User)) => nu.0 == m, t'.mapPerms)
    && Without(t.groupPerms, (ng: (MapId, GroupId)) => ng.0 == m, t'.groupPerms)
    && Without(t.scopes, (kn: (KeyId, MapId)) => kn.1 == m, t'.scopes)
  }

  ghost predicate UserIsGone(t: Tables, u: User, t': Tables) {
    && t'.groups == t.groups && t'.maps == t.maps && t'.versions == t.versions && t'.aliases == t.aliases
    && t'.groupPerms == t.groupPerms
    && Without(t.users, (w: User) => w == u, t'.users)
    && (forall g, w :: (g, w) in t'.members <==> (g, w) in t.members && w != u)
    && Without(t.mapPerms, (mw: (MapId, User)) => mw.1 == u, t'.mapPerms)
    && Without(t.keys, (k: KeyId) => k in t.keys && t.keys[k].user == u, t'.keys)
    && Without(t.scopes, (km: (KeyId, MapId)) => km.0 in t.keys && t.keys[km.0].user == u, t'.scopes)
  }

  ghost predicate GroupIsGone(t: Tables, g: GroupId, t': Tables) {
    && t'.users == t.users && t'.maps == t.maps && t'.versions == t.versions && t'.aliases == t.aliases
    && t'.mapPerms == t.mapPerms && t'.keys == t.keys && t'.scopes == t.scopes
    && Without(t.groups, (h: GroupId) => h == g, t'.groups)
    && (forall h, u :: (h, u) in t'.members <==> (h, u) in t.members && h != g)
    && Without(t.groupPerms, (mh: (MapId, GroupId)) => mh.1 == g, t'.groupPerms)
  }

  lemma DeleteMapTakesContents(t: Tables, m: MapId)
    requires m in t.maps
    ensures Without(t.maps, (n: MapId) => n == m, MapsAfter(t, Op.DeleteMap(m)))
    ensures forall n, v :: (n, v) in VersionsAfter(t, Op.DeleteMap(m)) <==> (n, v) in t.versions && n != m
    ensures Without(t.aliases, (na: (MapId, string)) => na.0 == m, AliasesAfter(t, Op.DeleteMap(m)))
  {
  }

  lemma DeleteMapTakesGrants(t: Tables, m: MapId)
    requires m in t.maps
    ensures Without(t.mapPerms, (nu: (MapId, User)) => nu.0 == m, MapPermsAfter(t, Op.DeleteMap(m)))
    ensures Without(t.groupPerms, (ng: (MapId, GroupId)) => ng.0 == m, GroupPermsAfter(t, Op.DeleteMap(m)))
    ensures Without(t.scopes, (kn: (KeyId, MapId)) => kn.1 == m, ScopesAfter(t, Op.DeleteMap(m)))
  {
  }

  lemma DeleteMapTakes(t: Tables, m: MapId)
    requires m in t.maps
    ensures MapIsGone(t, m, TablesAfter(t, Op.DeleteMap(m)))
  {
    DeleteMapTakesContents(t, m);
    DeleteMapTakesGrants(t, m);
    hide Without, MapsAfter, VersionsAfter, AliasesAfter, MapPermsAfter, GroupPermsAfter, ScopesAfter;
  }

  lemma DeleteUserTakesRows(t: Tables, u: User)
    requires Commits(t, Op.DeleteUser(u))
    ensures Without(t.users, (w: User) => w == u, UsersAfter(t, Op.DeleteUser(u)))
    ensures forall g, w :: (g, w) in MembersAfter(t, Op.DeleteUser(u)) <==> (g, w) in t.members && w != u
    ensures Without(t.mapPerms, (mw: (MapId, User)) => mw.1 == u, MapPermsAfter(t, Op.DeleteUser(u)))
  {
  }

  lemma DeleteUserTakesKeys(t: Tables, u: User)
    requires Commits(t, Op.DeleteUser(u))
    ensures Without(t.keys, (k: KeyId) => k in t.keys && t.keys[k].user == u, KeysAfter(t, Op.DeleteUser(u)))
    ensures Without(t.scopes, (km: (KeyId, MapId)) => km.0 in t.keys && t.keys[km.0].user == u, ScopesAfter(t, Op.DeleteUser(u)))
  {
  }

  lemma DeleteUserTakes(t: Tables, u: User)
    requires Commits(t, Op.DeleteUser(u))
    ensures UserIsGone(t, u, TablesAfter(t, Op.DeleteUser(u)))
  {
    DeleteUserTakesRows(t, u);
    DeleteUserTakesKeys(t, u);
    hide Without, UsersAfter, MembersAfter, MapPermsAfter, KeysAfter, ScopesAfter;
  }

  lemma DeleteGroupTakes(t: Tables, g: GroupId)
    requires g in t.groups
    ensures GroupIsGone(t, g, TablesAfter(t, Op.DeleteGroup(g)))
  {
  }

  class Store {
    var db: Tables
    var cache: Caches

    /** Each group's name, groups.ldap_group_dn and groups.oidc_group_claim. */
    var tags: map<GroupId, GroupTag>
    var nextGroup: GroupId

    constructor (db: Tables, tags: map<GroupId, GroupTag>, nextGroup: GroupId)
      requires tags.Keys == db.groups.Keys && UniqueTags(tags) && forall g | g in tags :: g < nextGroup
      ensures State() == StoreModel.State(db, COLD) && this.tags == tags && TagsOk()
    {
      this.db, cache, this.tags, this.nextGroup := db, COLD, tags, nextGroup;
    }

    ghost function State(): State
      reads this
    {
      StoreModel.State(db, cache)
    }

    ghost predicate TagsOk()
      reads this
    {
      && (forall g | g in db.groups :: g < nextGroup)
      && tags.Keys == db.groups.Keys && UniqueTags(tags)
    }

    /** One statement or transaction: it commits, or fails and changes nothing. */
    method Exec(op: Op) returns (ok: bool)
      modifies this`db
      ensures ok == Commits(old(db), op) && db == TablesAfter(old(db), op)
    {
      ok := Commits(db, op);
      db := TablesAfter(db, op);
    }

    // ----- Lookups -----

    method GetMap(m: MapId) returns (row: Option<MapRow>)
      modifies this`cache
      ensures row == MapAnswer(old(State()), m) && State() == Apply(old(State()), Op.GetMap(m))
      ensures row.Some? ==> m in cache.maps && cache.maps[m] == row.value
    {
      if m in cache.maps { return Some(cache.maps[m]); }
      if m !in db.maps { return None; }
      row := Some(db.maps[m]);
      cache := cache.(maps := cache.maps[m := row.value]);
    }

    method GetCurrentVersion(m: MapId) returns (v: Option<string>)
      modifies this`cache
      ensures v == CurrentAnswer(old(State()), m) && State() == Apply(old(State()), Op.GetCurrentVersion(m))
      ensures v.Some? ==> m in cache.currents && cache.currents[m] == v.value
    {
      if m in cache.currents { return Some(cache.currents[m]); }
      if m !in db.maps { return None; }
      v := Some(db.maps[m].current);
      cache := cache.(currents := cache.currents[m := v.value]);
    }

    method GetPermissions(u: User) returns (p: Option<Permissions>)
      modifies this`cache
      ensures p == PermissionsAnswer(old(State()), u) && State() == Apply(old(State()), Op.GetPermissions(u))
      ensures if p.Some? then u in cache.perms && cache.perms[u] == p.value else u !in cache.perms
    {
      hide GlobalPermissions;
      if u in cache.perms { return Some(cache.perms[u]); }
      p := GlobalPermissions(db, u);
      if p.Some? { cache := cache.(perms := cache.perms[u := p.value]); }
    }

    method GetMapPermission(m: MapId, u: User) returns (grant: MapPermission)
      modifies this`cache
      ensures grant == GrantAnswer(old(State()), m, u) && State() == Apply(old(State()), Op.GetMapPermission(m, u))
      ensures (m, u) in cache.mapPerms && cache.mapPerms[(m, u)] == grant
    {
      hide GrantOf;
      if (m, u) in cache.mapPerms { return cache.mapPerms[(m, u)]; }
      grant := GrantOf(db, m, u);
      cache := cache.(mapPerms := cache.mapPerms[(m, u) := grant]);
    }

    method GetMapVersionAlias(m: MapId, alias: string) returns (v: Option<Version>)
      modifies this`cache
      ensures v == AliasAnswer(old(State()), m, alias) && State() == Apply(old(State()), Op.GetAlias(m, alias))
      ensures v.Some? ==> (m, alias) in cache.aliases && cache.aliases[(m, alias)] == v.value
    {
      if (m, alias) in cache.aliases { return Some(cache.aliases[(m, alias)]); }
      if (m, alias) !in db.aliases { return None; }
      v := Some(db.aliases[(m, alias)]);
      cache := cache.(aliases := cache.aliases[(m, alias) := v.value]);
    }

    method ResolveAPIKeySigningKey(k: KeyId) returns (r: Option<CachedKey>)
      modifies this`cache
      ensures r == (if k in old(cache.keys) then Some(old(cache.keys)[k]) else KeyEntry(db, k))
      ensures State() == Apply(old(State()), ResolveKey(k))
      ensures if r.Some? then k in cache.keys && cache.keys[k] == r.value else k !in cache.keys
    {
      if k in cache.keys { return Some(cache.keys[k]); }
      if !ActiveKey(db, k) { return None; }
      var row := db.keys[k];
      r := Some(CachedKey(row.user, row.pem, row.scoped));
      cache := cache.(keys := cache.keys[k := r.value]);
    }

    /** resolveAPIKeyMapScope, which reuses the cached signing key's flag but does not fill it. */
    method ResolveAPIKeyMapScope(k: KeyId, m: MapId) returns (r: Option<Option<ScopeEntry>>)
      modifies this`cache
      ensures r == ScopeAnswer(old(State()), k, m) && State() == Apply(old(State()), ResolveScope(k, m))
    {
      var scoped: bool;
      if k in cache.keys {
        scoped := cache.keys[k].scoped;
      } else if ActiveKey(db, k) {
        scoped := db.keys[k].scoped;
      } else {
        return None;
      }
      if !scoped { return Some(None); }
      if (k, m) in cache.scopes { return Some(Some(cache.scopes[(k, m)])); }
      var entry := if (k, m) in db.scopes then ScopeEntry(true, db.scopes[(k, m)]) else ScopeEntry(false, []);
      cache := cache.(scopes := cache.scopes[(k, m) := entry]);
      return Some(Some(entry));
    }

    // ----- Writers -----

    method InvalidateMap(m: MapId)
      modifies this`cache
      ensures cache == old(cache).(maps := old(cache).maps - {m}, currents := old(cache).currents - {m})
    {
      cache := cache.(maps := cache.maps - {m});
      cache := cache.(currents := cache.currents - {m});
    }

    method UpdateMap(m: MapId, name: string, current: string, visibleToAll: bool, anonymousAllowed: bool) returns (row: Option<MapRow>)
      modifies this`db, this`cache
      ensures State() == Apply(old(State()), Op.UpdateMap(m, name, current, visibleToAll, anonymousAllowed))
      ensures row == if m in db.maps then Some(db.maps[m]) else None
      ensures db == if m !in old(db).maps then old(db) else old(db).(maps := old(db).maps[m :=
                      MapRow(name, current, visibleToAll, anonymousAllowed, old(db).maps[m].owner)])
      ensures row.Some? ==> forall n :: MapAnswer(State(), n) == if n == m then row else MapAnswer(old(State()), n)
    {
      var ok := Exec(Op.UpdateMap(m, name, current, visibleToAll, anonymousAllowed));
      if !ok { return None; }
      InvalidateMap(m);
      return Some(db.maps[m]);
    }

    method CreateMap(m: MapId, name: string, current: string, visibleToAll: bool, anonymousAllowed: bool, owner: User) returns (ok: bool)
      modifies this`db
      ensures State() == Apply(old(State()), Op.CreateMap(m, MapRow(name, current, visibleToAll, anonymousAllowed, owner)))
      ensures ok == (m !in old(db).maps && owner in old(db).users)
      ensures db == if ok then old(db).(maps := old(db).maps[m := MapRow(name, current, visibleToAll, anonymousAllowed, owner)])
                    else old(db)
    {
      ok := Exec(Op.CreateMap(m, MapRow(name, current, visibleToAll, anonymousAllowed, owner)));
    }

    /** RecordSyncedMapVersion, ON CONFLICT DO NOTHING. */
    method RecordSyncedMapVersion(m: MapId, v: Version) returns (ok: bool)
      modifies this`db
      ensures State() == Apply(old(State()), RecordSyncedVersion(m, v)) && ok == (m in old(db).maps)
      ensures db == if ok then old(db).(versions := old(db).versions + {(m, v)}) else old(db)
    {
      ok := Exec(RecordSyncedVersion(m, v));
    }

    method CreateUser(u: User, p: Permissions) returns (ok: bool)
      modifies this`db
      ensures State() == Apply(old(State()), Op.CreateUser(u, p)) && ok == (u !in old(db).users)
      ensures db == if ok then old(db).(users := old(db).users[u := p]) else old(db)
    {
      ok := Exec(Op.CreateUser(u, p));
    }

    /** A new key is active and unscoped. */
    method CreateAPIKey(k: KeyId, u: User, pem: string) returns (ok: bool)
      modifies this`db
      ensures State() == Apply(old(State()), CreateKey(k, u, pem)) && ok == (k !in old(db).keys && u in old(db).users)
      ensures db == if ok then old(db).(keys := old(db).keys[k := KeyRow(u, pem, false, false)]) else old(db)
    {
      ok := Exec(CreateKey(k, u, pem));
    }

    /** RevokeAPIKey leaves the cached key where it is. */
    method RevokeAPIKey(u: User, k: KeyId) returns (ok: bool)
      modifies this`db
      ensures State() == Apply(old(State()), RevokeKey(u, k))
      ensures ok == (k in old(db).keys && old(db).keys[k].user == u && !old(db).keys[k].revoked)
      ensures db == if ok then old(db).(keys := old(db).keys[k := old(db).keys[k].(revoked := true)]) else old(db)
      ensures ok ==> KeyEntry(db, k) == None && cache == old(cache)
    {
      ok := Exec(RevokeKey(u, k));
    }

    method UpdateMapOwner(m: MapId, owner: User) returns (ok: bool)
      modifies this`db, this`cache
      ensures State() == Apply(old(State()), Op.UpdateMapOwner(m, owner))
      ensures ok == (m in old(db).maps && owner in old(db).users)
      ensures ok ==> db == old(db).(maps := old(db).maps[m := old(db).maps[m].(owner := owner)]) && MapAnswer(State(), m) == Some(db.maps[m])
      ensures !ok ==> db == old(db)
    {
      ok := Exec(Op.UpdateMapOwner(m, owner));
      if ok { cache := cache.(maps := cache.maps - {m}); }
    }

    method UpsertSyncedMap(m: MapId, name: string, visibleToAll: bool, anonymousAllowed: bool, actor: User) returns (ok: bool)
      modifies this`db, this`cache
      ensures State() == Apply(old(State()), Op.UpsertSyncedMap(m, name, visibleToAll, anonymousAllowed, actor))
      ensures ok == (actor in old(db).users)
      ensures ok ==> m in db.maps && CurrentAnswer(State(), m) == Some(if m in old(db).maps then old(db).maps[m].current else "")
      ensures db == if !ok then old(db) else old(db).(maps := old(db).maps[m :=
                      if m in old(db).maps
                      then MapRow(name, old(db).maps[m].current, visibleToAll, anonymousAllowed, old(db).maps[m].owner)
                      else MapRow(name, "", visibleToAll, anonymousAllowed, actor)])
    {
      ok := Exec(Op.UpsertSyncedMap(m, name, visibleToAll, anonymousAllowed, actor));
      if ok { InvalidateMap(m); }
    }

    method SetSyncedCurrentVersion(m: MapId, v: Version) returns (ok: bool)
      modifies this`db, this`cache
      ensures State() == Apply(old(State()), SetSyncedCurrent(m, v))
      ensures ok == (m in old(db).maps && (m, v) in old(db).versions)
      ensures ok ==> CurrentAnswer(State(), m) == Some(v)
      ensures db == if !ok then old(db) else old(db).(maps := old(db).maps[m := old(db).maps[m].(current := v)])
    {
      ok := Exec(SetSyncedCurrent(m, v));
      if ok { InvalidateMap(m); }
    }

    /** IncrementMapVersion; which number comes next is the Upload module's concern. */
    method IncrementMapVersion(m: MapId, next: Version) returns (ok: bool)
      modifies this`db, this`cache
      ensures State() == Apply(old(State()), IncrementVersion(m, next))
      ensures ok == (m in old(db).maps && (m, next) !in old(db).versions)
      ensures db == if !ok then old(db) else old(db).(maps := old(db).maps[m := old(db).maps[m].(current := next)],
                                                      versions := old(db).versions + {(m, next)})
      ensures ok ==> CurrentAnswer(State(), m) == Some(next) && MapAnswer(State(), m).Some? && MapAnswer(State(), m).value.current == next
    {
      ok := Exec(IncrementVersion(m, next));
      if ok { InvalidateMap(m); }
    }

    method DeleteMap(m: MapId) returns (ok: bool)
      modifies this`db, this`cache
      ensures State() == Apply(old(State()), Op.DeleteMap(m)) && ok == (m in old(db).maps)
      ensures ok ==> MapAnswer(State(), m) == None
      ensures ok ==> MapIsGone(old(db), m, db)
      ensures !ok ==> db == old(db)
    {
      hide MapIsGone;
      if m in db.maps { DeleteMapTakes(db, m); }
      ok := Exec(Op.DeleteMap(m));
      if ok { InvalidateMap(m); }
    }

    method UpdateUser(u: User, p: Permissions, rereadOk: bool) returns (ok: bool)
      modifies this`db, this`cache
      ensures State() == Apply(old(State()), Op.UpdateUser(u, p, rereadOk)) && ok == (u in old(db).users && rereadOk)
      ensures ok ==> PermissionsAnswer(State(), u) == GlobalPermissions(db, u)
      ensures db == if u in old(db).users then old(db).(users := old(db).users[u := p]) else old(db)
    {
      ok := Exec(Op.UpdateUser(u, p, rereadOk));
      if !ok || !rereadOk { return false; }
      cache := cache.(perms := cache.perms - {u});
    }

    method DeleteUser(u: User) returns (ok: bool)
      modifies this`db, this`cache
      ensures State() == Apply(old(State()), Op.DeleteUser(u)) && ok == Commits(old(db), Op.DeleteUser(u))
      ensures ok == (u in old(db).users && forall m | m in old(db).maps :: old(db).maps[m].owner != u)
      ensures ok ==> u !in cache.perms && UserIsGone(old(db), u, db)
      ensures !ok ==> db == old(db)
    {
      hide UserIsGone;
      if Commits(db, Op.DeleteUser(u)) { DeleteUserTakes(db, u); }
      ok := Exec(Op.DeleteUser(u));
      if ok { cache := cache.(perms := cache.perms - {u}); }
    }

    method UpdateGroup(g: GroupId, p: Permissions, tag: GroupTag, rereadOk: bool) returns (r: GroupUpdate)
      requires TagsOk()
      modifies this`db, this`cache, this`tags
      ensures TagsOk()
      ensures r == if g !in old(db).groups then GroupNotFound
                   else if !Fits(old(tags), g, tag) then GroupExists
                   else if !rereadOk then RereadFailed
                   else Updated
      ensures r == GroupNotFound || r == GroupExists ==> State() == old(State()) && tags == old(tags)
      ensures r == RereadFailed || r == Updated ==>
                && State() == Apply(old(State()), Op.UpdateGroup(g, p, rereadOk)) && tags == old(tags)[g := tag]
                && db == old(db).(groups := old(db).groups[g := p])
      ensures r == Updated ==> forall u :: PermissionsAnswer(State(), u) == GlobalPermissions(db, u)
      ensures r == Updated ==> forall m, u :: GrantAnswer(State(), m, u) == GrantOf(db, m, u)
    {
      hide GlobalPermissions, GrantOf, Fits, UniqueTags, Apply;
      if g in db.groups { GroupUpdated(State(), g, p, rereadOk); }
      if g in db.groups && !Fits(tags, g, tag) { return GroupExists; }
      var ok := Exec(Op.UpdateGroup(g, p, rereadOk));
      if !ok { return GroupNotFound; }
      FittingKeepsUnique(tags, g, tag);
      tags := tags[g := tag];
      if !rereadOk { return RereadFailed; }
      cache := cache.(perms := map[]);
      cache := cache.(mapPerms := map[]);
      return Updated;
    }

    method DeleteGroup(g: GroupId) returns (ok: bool)
      requires TagsOk()
      modifies this`db, this`cache, this`tags
      ensures State() == Apply(old(State()), Op.DeleteGroup(g)) && ok == (g in old(db).groups)
      ensures ok ==> forall u :: PermissionsAnswer(State(), u) == GlobalPermissions(db, u)
      ensures ok ==> forall m, u :: GrantAnswer(State(), m, u) == GrantOf(db, m, u)
      ensures TagsOk() && tags == old(tags) - {g}
      ensures if ok then GroupIsGone(old(db), g, db) else db == old(db)
    {
      hide GlobalPermissions, GrantOf;
      hide Fits, UniqueTags, GroupIsGone;
      if g in db.groups { DeleteGroupTakes(db, g); }
      ok := Exec(Op.DeleteGroup(g));
      DroppingKeepsUnique(tags, g);
      if !ok {
        assert tags - {g} == tags;
        return;
      }
      tags := tags - {g};
      cache := cache.(perms := map[]);
      cache := cache.(mapPerms := map[]);
    }

    method SetMapPermission(m: MapId, u: User, grant: MapPermission) returns (ok: bool)
      modifies this`db, this`cache
      ensures State() == Apply(old(State()), Op.SetMapPermission(m, u, grant))
      ensures ok == (m in old(db).maps && u in old(db).users)
      ensures ok ==> GrantAnswer(State(), m, u) == GrantOf(db, m, u)
      ensures db == if ok then old(db).(mapPerms := old(db).mapPerms[(m, u) := grant]) else old(db)
    {
      ok := Exec(Op.SetMapPermission(m, u, grant));
      if ok { cache := cache.(mapPerms := cache.mapPerms - {(m, u)}); }
    }

    method SetGroupMapPermission(m: MapId, g: GroupId, grant: MapPermission) returns (ok: bool)
      modifies this`db, this`cache
      ensures State() == Apply(old(State()), Op.SetGroupMapPermission(m, g, grant))
      ensures ok == (m in old(db).maps && g in old(db).groups)
      ensures ok ==> forall n, u :: GrantAnswer(State(), n, u) == GrantOf(db, n, u)
      ensures db == if ok then old(db).(groupPerms := old(db).groupPerms[(m, g) := grant]) else old(db)
    {
      ok := Exec(Op.SetGroupMapPermission(m, g, grant));
      if ok { cache := cache.(mapPerms := map[]); }
    }

    method DeleteMapPermission(m: MapId, u: User)
      modifies this`db, this`cache
      ensures State() == Apply(old(State()), Op.DeleteMapPermission(m, u))
      ensures db == old(db).(mapPerms := old(db).mapPerms - {(m, u)})
      ensures GrantAnswer(State(), m, u) == GrantOf(db, m, u)
    {
      hide GrantOf;
      var _ := Exec(Op.DeleteMapPermission(m, u));
      cache := cache.(mapPerms := cache.mapPerms - {(m, u)});
    }

    method DeleteGroupMapPermission(m: MapId, g: GroupId)
      modifies this`db, this`cache
      ensures State() == Apply(old(State()), Op.DeleteGroupMapPermission(m, g))
      ensures db == old(db).(groupPerms := old(db).groupPerms - {(m, g)})
      ensures forall n, u :: GrantAnswer(State(), n, u) == GrantOf(db, n, u)
    {
      hide GrantOf;
      var _ := Exec(Op.DeleteGroupMapPermission(m, g));
      cache := cache.(mapPerms := map[]);
    }

    method SetMapVersionAlias(m: MapId, alias: string, v: Version) returns (ok: bool)
      modifies this`db, this`cache
      ensures State() == Apply(old(State()), SetAlias(m, alias, v))
      ensures ok == (m in old(db).maps && (m, v) in old(db).versions)
      ensures ok ==> AliasAnswer(State(), m, alias) == Some(v)
      ensures db == if ok then old(db).(aliases := old(db).aliases[(m, alias) := v]) else old(db)
    {
      ok := Exec(SetAlias(m, alias, v));
      if ok { cache := cache.(aliases := cache.aliases - {(m, alias)}); }
    }

    method DeleteMapVersionAlias(m: MapId, alias: string)
      modifies this`db, this`cache
      ensures State() == Apply(old(State()), DeleteAlias(m, alias)) && AliasAnswer(State(), m, alias) == None
      ensures db == old(db).(aliases := old(db).aliases - {(m, alias)})
    {
      var _ := Exec(DeleteAlias(m, alias));
      cache := cache.(aliases := cache.aliases - {(m, alias)});
    }

    method SetAPIKeyScope(u: User, k: KeyId, m: MapId, vs: seq<Version>) returns (ok: bool)
      modifies this`db, this`cache
      ensures State() == Apply(old(State()), SetScope(u, k, m, vs))
      ensures ok == (k in old(db).keys && old(db).keys[k].user == u && !old(db).keys[k].revoked && m in old(db).maps)
      ensures ok ==> ScopeAnswer(State(), k, m) == Some(Some(ScopeEntry(true, vs)))
      ensures db == if !ok then old(db) else old(db).(scopes := old(db).scopes[(k, m) := vs],
                                                      keys := old(db).keys[k := old(db).keys[k].(scoped := true)])
    {
      ok := Exec(SetScope(u, k, m, vs));
      if !ok { return; }
      cache := cache.(keys := cache.keys - {k});
      cache := cache.(scopes := cache.scopes - {(k, m)});
    }

    method DeleteAPIKeyScope(u: User, k: KeyId, m: MapId) returns (ok: bool)
      modifies this`db, this`cache
      ensures State() == Apply(old(State()), DeleteScope(u, k, m))
      ensures ok == (k in old(db).keys && old(db).keys[k].user == u && !old(db).keys[k].revoked && (k, m) in old(db).scopes)
      ensures ok && ScopedFlag(old(State()), k) == Some(true) ==> ScopeAnswer(State(), k, m) == Some(Some(ScopeEntry(false, [])))
      ensures db == if ok then old(db).(scopes := old(db).scopes - {(k, m)}) else old(db)
    {
      ok := Exec(DeleteScope(u, k, m));
      if ok { cache := cache.(scopes := cache.scopes - {(k, m)}); }
    }

    method ClearAPIKeyScope(u: User, k: KeyId) returns (ok: bool)
      modifies this`db, this`cache
      ensures State() == Apply(old(State()), ClearScope(u, k))
      ensures ok == (k in old(db).keys && old(db).keys[k].user == u && !old(db).keys[k].revoked)
      ensures ok ==> forall m :: ScopeAnswer(State(), k, m) == Some(None)
      ensures ok ==> db == old(db).(scopes := db.scopes, keys := old(db).keys[k := old(db).keys[k].(scoped := false)])
      ensures ok ==> forall l, m :: (l, m) in db.scopes <==> (l, m) in old(db).scopes && l != k
      ensures ok ==> forall km | km in db.scopes :: db.scopes[km] == old(db).scopes[km]
      ensures !ok ==> db == old(db)
    {
      ok := Exec(ClearScope(u, k));
      if ok { cache := cache.(keys := cache.keys - {k}); }
    }

    // ----- Group membership -----

    /** The inserts of replaceGroupMembership; one that violates a foreign key aborts them all. */
    method InsertMembers(u: User, ids: seq<GroupId>, members: set<(GroupId, User)>) returns (ok: bool, result: set<(GroupId, User)>)
      ensures ok == forall g | g in ids :: u in db.users && g in db.groups
      ensures ok ==> result == members + set g | g in ids :: (g, u)
    {
      result := members;
      for i := 0 to |ids|
        invariant result == members + set g | g in ids[..i] :: (g, u)
        invariant forall g | g in ids[..i] :: u in db.users && g in db.groups
      {
        if u !in db.users || ids[i] !in db.groups {
          assert ids[i] in ids;
          return false, result;
        }
        assert forall g :: g in ids[..i + 1] <==> g in ids[..i] || g == ids[i];
        result := result + {(ids[i], u)};
      }
      assert ids[..|ids|] == ids;
      ok := true;
    }

    /** replaceGroupMembership: one transaction that deletes the user's rows and inserts the new ones. */
    method ReplaceGroupMembership(u: User, ids: seq<GroupId>) returns (ok: bool)
      requires forall i, j | 0 <= i < j < |ids| :: ids[i] != ids[j]
      modifies this`db, this`cache
      ensures State() == Apply(old(State()), ReplaceMembership(u, set g | g in ids))
      ensures ok == forall g | g in ids :: u in old(db).users && g in old(db).groups
      ensures ok ==> db == old(db).(members := db.members) && forall g :: (g, u) in db.members <==> g in ids
      ensures !ok ==> db == old(db)
    {
      hide Apply;
      ghost var op := ReplaceMembership(u, set g | g in ids);
      Resynced(State(), u, op.gs);
      var members;
      ok, members := InsertMembers(u, ids, set gm | gm in db.members && gm.1 != u);
      assert forall g :: g in ids <==> g in op.gs;
      assert ids != [] ==> ids[0] in ids;
      if ok {
        db := db.(members := members);
        cache := cache.(perms := cache.perms - {u});
      }
    }

    /** findGroupByLink. */
    method FindGroupByLink(column: Column, value: string) returns (g: Option<GroupId>)
      ensures if g.Some? then LinkedTo(tags, column, value, g.value) else forall h :: !LinkedTo(tags, column, value, h)
    {
      if h :| h in tags && LinkedTo(tags, column, value, h) { return Some(h); }
      return None;
    }

    /** CreateGroup and insertSyncedGroup: a new row, unless a unique index refuses it. */
    method InsertGroup(p: Permissions, tag: GroupTag) returns (g: Option<GroupId>)
      requires TagsOk()
      modifies this`db, this`tags, this`nextGroup
      ensures TagsOk() && nextGroup >= old(nextGroup)
      ensures g == if Fits(old(tags), old(nextGroup), tag) then Some(old(nextGroup)) else None
      ensures g == None ==> db == old(db) && tags == old(tags)
      ensures g.Some? ==>
                && g.value !in old(db).groups && db == old(db).(groups := old(db).groups[g.value := p])
                && tags == old(tags)[g.value := tag]
    {
      hide Fits;
      if !Fits(tags, nextGroup, tag) { return None; }
      var _ := Exec(CreateGroup(nextGroup, p));
      FittingKeepsUnique(tags, nextGroup, tag);
      g := Some(nextGroup);
      tags, nextGroup := tags[nextGroup := tag], nextGroup + 1;
    }

    /** getOrCreateGroupByLink: a group seen for the first time grants nothing. It is refused only if its
        display name is taken and so is the suffixed one, or no suffix could be drawn. */
    method GetOrCreateGroup(column: Column, value: string, display: string, suffix: Option<string>) returns (g: Option<GroupId>)
      requires TagsOk() && value != ""
      modifies this`db, this`tags, this`nextGroup
      ensures TagsOk()
      ensures forall x: GroupId | LinkedTo(old(tags), column, value, x) :: g == Some(x) && db == old(db) && tags == old(tags)
      ensures (forall x :: !LinkedTo(old(tags), column, value, x)) ==>
                match NameFor(old(tags), display, suffix)
                case None => g == None && db == old(db) && tags == old(tags)
                case Some(name) =>
                  && g.Some? && g.value !in old(db).groups && db == old(db).(groups := old(db).groups[g.value := NO_PERMISSIONS])
                  && tags == old(tags)[g.value := SyncedTag(column, value, name)]
      ensures OnlyAdded(old(db).groups, old(tags), db.groups, tags) && db == old(db).(groups := db.groups)
      ensures g.Some? ==> LinkedTo(tags, column, value, g.value)
      ensures g.Some? && g.value !in old(tags) ==>
                if NameTaken(old(tags), display) then suffix.Some? && tags[g.value].name == display + "-" + suffix.value
                else tags[g.value].name == display
    {
      hide Fits, NameTaken, UniqueTags;
      g := FindGroupByLink(column, value);
      if g.Some? {
        forall x: GroupId | LinkedTo(tags, column, value, x) ensures g == Some(x) {
          OneGroupPerLink(tags, column, value, x, g.value);
        }
        return;
      }
      NewGroupFitsIff(tags, nextGroup, column, value, display);
      g := InsertGroup(NO_PERMISSIONS, SyncedTag(column, value, display));
      if g.Some? { return; }
      g := FindGroupByLink(column, value);
      if g.Some? || suffix == None { return; }
      NewGroupFitsIff(tags, nextGroup, column, value, display + "-" + suffix.value);
      g := InsertGroup(NO_PERMISSIONS, SyncedTag(column, value, display + "-" + suffix.value));
    }

    /** The loop of syncGroupMembership: each distinct nonblank value's group, in order, up to the first
        that cannot be had. */
    method ResolveGroups(column: Column, values: seq<string>, naming: Naming) returns (ids: Option<seq<GroupId>>, ghost names: seq<string>)
      requires TagsOk()
      modifies this`db, this`tags, this`nextGroup
      ensures TagsOk() && db == old(db).(groups := db.groups) && OnlyAdded(old(db).groups, old(tags), db.groups, tags)
      ensures ids == None ==> Refused(tags, column, values, naming)
      ensures ids.Some? ==> NamesOf(values, names) && GroupsFor(tags, column, names, ids.value)
    {
      hide UniqueTags, Fits, NameTaken, NamesOf, OnlyAdded, LinkedTo, GroupsFor, NameFor;
      assert OnlyAdded(db.groups, tags, db.groups, tags) && NamesOf([], []) && GroupsFor(tags, column, [], []) by {
        NothingAdded(db.groups, tags, column);
      }
      names := [];
      var found: seq<GroupId> := [];
      var seen: set<string> := {};
      for i := 0 to |values|
        invariant TagsOk() && db == old(db).(groups := db.groups) && OnlyAdded(old(db).groups, old(tags), db.groups, tags)
        invariant NamesOf(values[..i], names) && GroupsFor(tags, column, names, found)
        invariant forall v :: v in seen <==> v in names
      {
        OneMoreName(values, names, i);
        var v := values[i];
        if v != "" && v !in seen {
          seen := seen + {v};
          ghost var groups, had := db.groups, tags;
          var g := GetOrCreateGroup(column, v, naming.display(v), naming.suffix(v));
          if g == None {
            assert v in values;
            return None, names;
          }
          OnlyAddedTwice(old(db).groups, old(tags), groups, had, db.groups, tags);
          OneMoreGroup(groups, had, db.groups, tags, column, names, found, v, g.value);
          found, names := found + [g.value], names + [v];
        }
      }
      assert values[..|values|] == values;
      ids := Some(found);
    }

    /** syncGroupMembership: afterwards the user belongs to exactly the groups its directory values are
        linked to; nobody else's membership changes, and a group that had to be created grants nothing.
        It fails only for an unknown user or over a group that could not be created; then no membership
        changes. */
    method SyncGroupMembership(u: User, column: Column, values: seq<string>, naming: Naming) returns (ok: bool)
      requires TagsOk()
      modifies this
      ensures TagsOk() && OnlyAdded(old(db).groups, old(tags), db.groups, tags)
      ensures !ok ==> Refused(tags, column, values, naming) || (u !in old(db).users && exists v :: v in values && v != "")
      ensures ok ==> u in old(db).users || forall v | v in values :: v == ""
      ensures ok ==> forall v | v in values && v != "" :: exists g :: LinkedTo(tags, column, v, g)
      ensures ok ==> forall g: GroupId :: (g, u) in db.members <==> exists v :: v in values && v != "" && LinkedTo(tags, column, v, g)
      ensures forall g, w | w != u || !ok :: (g, w) in db.members <==> (g, w) in old(db).members
    {
      hide Apply, Commits, Fits, UniqueTags;
      ghost var names;
      var ids;
      ids, names := ResolveGroups(column, values, naming);
      if ids == None { return false; }
      GroupsOfValues(tags, column, values, names, ids.value);
      ghost var before := State();
      ok := ReplaceGroupMembership(u, ids.value);
      OthersStay(before, u, set g | g in ids.value);
    }
  }

  lemma GroupsOfValues(tags: map<GroupId, GroupTag>, column: Column, values: seq<string>, names: seq<string>, ids: seq<GroupId>)
    requires UniqueTags(tags) && NamesOf(values, names) && GroupsFor(tags, column, names, ids)
    ensures forall g :: g in ids <==> exists v :: v in values && v != "" && LinkedTo(tags, column, v, g)
    ensures forall v | v in values && v != "" :: exists g :: LinkedTo(tags, column, v, g)
    ensures (forall g :: g !in ids) <==> forall v | v in values :: v == ""
    ensures forall i, j | 0 <= i < j < |ids| :: ids[i] != ids[j]
    ensures forall g | g in ids :: g in tags
  {
    forall v, g | v in values && v != "" && LinkedTo(tags, column, v, g) ensures g in ids {
      assert v in names;
      var j :| 0 <= j < |names| && names[j] == v;
      OneGroupPerLink(tags, column, v, g, ids[j]);
    }
    forall v | v in values && v != "" ensures exists g :: g in ids && LinkedTo(tags, column, v, g) {
      assert v in names;
      var j :| 0 <= j < |names| && names[j] == v;
      assert LinkedTo(tags, column, v, ids[j]);
    }
    forall g | g in ids ensures exists v :: v in values && v != "" && LinkedTo(tags, column, v, g) {
      var j :| 0 <= j < |ids| && ids[j] == g;
      assert names[j] in names;
    }
  }

  lemma GroupUpdated(s: State, g: GroupId, p: Permissions, rereadOk: bool)
    requires g in s.db.groups
    ensures Apply(s, UpdateGroup(g, p, rereadOk)) ==
              StoreModel.State(s.db.(groups := s.db.groups[g := p]),
                               if rereadOk then s.cache.(perms := map[], mapPerms := map[]) else s.cache)
  {
  }

  lemma Resynced(s: State, u: User, gs: set<GroupId>)
    ensures Apply(s, ReplaceMembership(u, gs)) ==
              if gs == {} || (u in s.db.users && gs <= s.db.groups.Keys)
              then StoreModel.State(s.db.(members := (set gm | gm in s.db.members && gm.1 != u) + set g | g in gs :: (g, u)),
                                    s.cache.(perms := s.cache.perms - {u}))
              else s
  {
  }

  /** A resync of one user's membership leaves everyone else's alone. */
  lemma OthersStay(s: State, u: User, gs: set<GroupId>)
    ensures var t := Apply(s, ReplaceMembership(u, gs)).db;
            t.groups == s.db.groups && forall g, w | w != u :: (g, w) in t.members <==> (g, w) in s.db.members
  {
    hide CachesAfter;
  }

  const NO_PERMISSIONS := Permissions(false, false, false, false, false, false, false)
}
