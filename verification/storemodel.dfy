/** The tables and caches behind the store, as functions of the calls made on it. A call commits as a
    whole or changes nothing; calls do not overlap here (the Staleness module is about overlap). */
module StoreModel {
  import opened Wrappers

  type User = string
  type MapId = nat
  type GroupId = nat
  type KeyId = nat
  type Version = string

  datatype Permissions = Permissions(
    canCreate: bool, canEdit: bool, canDelete: bool, canEditGeo: bool, canDeleteGeo: bool,
    canViewAll: bool, isAdmin: bool)
  {
    predicate GrantsMapVisibility() { isAdmin || canEdit || canDelete || canEditGeo || canDeleteGeo || canViewAll }
  }

  datatype MapPermission = MapPermission(
    canView: bool, canEdit: bool, canDelete: bool, canEditGeo: bool, canDeleteGeo: bool)
  {
    predicate GrantsVisibility() { canView || canEdit || canDelete || canEditGeo || canDeleteGeo }
  }

  datatype MapRow = MapRow(name: string, current: string, visibleToAll: bool, anonymousAllowed: bool, owner: User)

  datatype KeyRow = KeyRow(user: User, pem: string, revoked: bool, scoped: bool)

  datatype Tables = Tables(
    users: map<User, Permissions>, groups: map<GroupId, Permissions>, members: set<(GroupId, User)>,
    maps: map<MapId, MapRow>, versions: set<(MapId, Version)>, aliases: map<(MapId, string), Version>,
    mapPerms: map<(MapId, User), MapPermission>, groupPerms: map<(MapId, GroupId), MapPermission>,
    keys: map<KeyId, KeyRow>, scopes: map<(KeyId, MapId), seq<Version>>)

  datatype CachedKey = CachedKey(user: User, pem: string, scoped: bool)

  /** No versions means every version. */
  datatype ScopeEntry = ScopeEntry(inScope: bool, versions: seq<Version>)

  /** The entries that have not expired. */
  datatype Caches = Caches(
    maps: map<MapId, MapRow>, currents: map<MapId, string>, perms: map<User, Permissions>,
    mapPerms: map<(MapId, User), MapPermission>, aliases: map<(MapId, string), Version>,
    keys: map<KeyId, CachedKey>, scopes: map<(KeyId, MapId), ScopeEntry>)

  datatype State = State(db: Tables, cache: Caches)

  const COLD := Caches(map[], map[], map[], map[], map[], map[], map[])

  // ----- Queries -----

  /** The rows GetPermissions unites: the user's own and those of every group it belongs to. */
  function GlobalRows(t: Tables, u: User): set<Permissions> {
    (if u in t.users then {t.users[u]} else {})
    + set gm | gm in t.members && gm.1 == u && gm.0 in t.groups :: t.groups[gm.0]
  }

  /** bool_or per column. */
  function OrFlags(rows: set<Permissions>): Permissions {
    Permissions(
      exists r | r in rows :: r.canCreate, exists r | r in rows :: r.canEdit, exists r | r in rows :: r.canDelete,
      exists r | r in rows :: r.canEditGeo, exists r | r in rows :: r.canDeleteGeo,
      exists r | r in rows :: r.canViewAll, exists r | r in rows :: r.isAdmin)
  }

  /** Over no rows bool_or is NULL, which GetPermissions fails on. */
  function GlobalPermissions(t: Tables, u: User): Option<Permissions> {
    var rows := GlobalRows(t, u);
    if rows == {} then None else Some(OrFlags(rows))
  }

  /** The rows GetMapPermission unites: the user's own grant and those of every group it belongs to. */
  function GrantRows(t: Tables, m: MapId, u: User): set<MapPermission> {
    (if (m, u) in t.mapPerms then {t.mapPerms[(m, u)]} else {})
    + set gm | gm in t.members && gm.1 == u && (m, gm.0) in t.groupPerms :: t.groupPerms[(m, gm.0)]
  }

  function OrGrants(rows: set<MapPermission>): MapPermission {
    MapPermission(
      exists r | r in rows :: r.canView, exists r | r in rows :: r.canEdit, exists r | r in rows :: r.canDelete,
      exists r | r in rows :: r.canEditGeo, exists r | r in rows :: r.canDeleteGeo)
  }

  /** Here NULL reads as false. */
  function GrantOf(t: Tables, m: MapId, u: User): MapPermission { OrGrants(GrantRows(t, m, u)) }

  predicate ActiveKey(t: Tables, k: KeyId) { k in t.keys && !t.keys[k].revoked }

  predicate KeyOf(t: Tables, u: User, k: KeyId) { ActiveKey(t, k) && t.keys[k].user == u }

  function KeyEntry(t: Tables, k: KeyId): Option<CachedKey> {
    if ActiveKey(t, k) then Some(CachedKey(t.keys[k].user, t.keys[k].pem, t.keys[k].scoped)) else None
  }

  function ScopeEntryOf(t: Tables, k: KeyId, m: MapId): ScopeEntry {
    if (k, m) in t.scopes then ScopeEntry(true, t.scopes[(k, m)]) else ScopeEntry(false, [])
  }

  // ----- Calls -----

  /** rereadOk: UpdateUser and UpdateGroup read the row again after the update and return early if that
      fails, before they touch a cache. Expire and Restart are not calls: entries run out, and the
      process may start again. */
  datatype Op =
    | GetMap(m: MapId) | GetCurrentVersion(m: MapId) | GetPermissions(u: User) | GetMapPermission(m: MapId, u: User)
    | GetAlias(m: MapId, alias: string) | ResolveKey(k: KeyId) | ResolveScope(k: KeyId, m: MapId)
    | CreateMap(m: MapId, row: MapRow)
    | UpsertSyncedMap(m: MapId, name: string, visibleToAll: bool, anonymousAllowed: bool, actor: User)
    | UpdateMap(m: MapId, name: string, current: string, visibleToAll: bool, anonymousAllowed: bool)
    | UpdateMapOwner(m: MapId, owner: User)
    | IncrementVersion(m: MapId, next: Version) | RecordSyncedVersion(m: MapId, v: Version)
    | SetSyncedCurrent(m: MapId, v: Version) | DeleteMap(m: MapId)
    | CreateUser(u: User, p: Permissions) | UpdateUser(u: User, p: Permissions, rereadOk: bool) | DeleteUser(u: User)
    | CreateGroup(g: GroupId, p: Permissions) | UpdateGroup(g: GroupId, p: Permissions, rereadOk: bool)
    | DeleteGroup(g: GroupId) | ReplaceMembership(u: User, gs: set<GroupId>)
    | SetMapPermission(m: MapId, u: User, grant: MapPermission) | DeleteMapPermission(m: MapId, u: User)
    | SetGroupMapPermission(m: MapId, g: GroupId, grant: MapPermission) | DeleteGroupMapPermission(m: MapId, g: GroupId)
    | SetAlias(m: MapId, alias: string, v: Version) | DeleteAlias(m: MapId, alias: string)
    | CreateKey(k: KeyId, u: User, pem: string) | RevokeKey(u: User, k: KeyId)
    | SetScope(u: User, k: KeyId, m: MapId, vs: seq<Version>) | DeleteScope(u: User, k: KeyId, m: MapId)
    | ClearScope(u: User, k: KeyId)
    | Expire(kept: Caches) | Restart

  /** Whether the call commits: the rows it names exist, and its foreign and primary keys hold. */
  predicate Commits(t: Tables, op: Op) {
    match op
    case CreateMap(m, row) => m !in t.maps && row.owner in t.users
    case UpsertSyncedMap(_, _, _, _, actor) => actor in t.users
    case UpdateMap(m, _, _, _, _) => m in t.maps
    case UpdateMapOwner(m, owner) => m in t.maps && owner in t.users
    case IncrementVersion(m, next) => m in t.maps && (m, next) !in t.versions
    case RecordSyncedVersion(m, _) => m in t.maps
    case SetSyncedCurrent(m, v) => m in t.maps && (m, v) in t.versions
    case DeleteMap(m) => m in t.maps
    case CreateUser(u, _) => u !in t.users
    case UpdateUser(u, _, _) => u in t.users
    case DeleteUser(u) => u in t.users && forall m | m in t.maps :: t.maps[m].owner != u
    case CreateGroup(g, _) => g !in t.groups
    case UpdateGroup(g, _, _) => g in t.groups
    case DeleteGroup(g) => g in t.groups
    case ReplaceMembership(u, gs) => gs == {} || (u in t.users && gs <= t.groups.Keys)
    case SetMapPermission(m, u, _) => m in t.maps && u in t.users
    case SetGroupMapPermission(m, g, _) => m in t.maps && g in t.groups
    case SetAlias(m, _, v) => m in t.maps && (m, v) in t.versions
    case CreateKey(k, u, _) => k !in t.keys && u in t.users
    case RevokeKey(u, k) => KeyOf(t, u, k)
    case SetScope(u, k, m, _) => KeyOf(t, u, k) && m in t.maps
    case DeleteScope(u, k, m) => KeyOf(t, u, k) && (k, m) in t.scopes
    case ClearScope(u, k) => KeyOf(t, u, k)
    case _ => true
  }

  // ----- What a committed call does to each table, cascades included -----

  function UsersAfter(t: Tables, op: Op): map<User, Permissions> {
    match op
    case CreateUser(u, p) => t.users[u := p]
    case UpdateUser(u, p, _) => t.users[u := p]
    case DeleteUser(u) => t.users - {u}
    case _ => t.users
  }

  function GroupsAfter(t: Tables, op: Op): map<GroupId, Permissions> {
    match op
    case CreateGroup(g, p) => t.groups[g := p]
    case UpdateGroup(g, p, _) => t.groups[g := p]
    case DeleteGroup(g) => t.groups - {g}
    case _ => t.groups
  }

  function MembersAfter(t: Tables, op: Op): set<(GroupId, User)> {
    match op
    case DeleteUser(u) => set gm | gm in t.members && gm.1 != u
    case DeleteGroup(g) => set gm | gm in t.members && gm.0 != g
    case ReplaceMembership(u, gs) => (set gm | gm in t.members && gm.1 != u) + set g | g in gs :: (g, u)
    case _ => t.members
  }

  function MapsAfter(t: Tables, op: Op): map<MapId, MapRow>
    requires Commits(t, op)
  {
    match op
    case CreateMap(m, row) => t.maps[m := row]
    case UpsertSyncedMap(m, name, v, a, actor) =>
      t.maps[m := if m in t.maps then t.maps[m].(name := name, visibleToAll := v, anonymousAllowed := a)
                  else MapRow(name, "", v, a, actor)]
    case UpdateMap(m, name, current, v, a) =>
      t.maps[m := t.maps[m].(name := name, current := current, visibleToAll := v, anonymousAllowed := a)]
    case UpdateMapOwner(m, owner) => t.maps[m := t.maps[m].(owner := owner)]
    case IncrementVersion(m, next) => t.maps[m := t.maps[m].(current := next)]
    case SetSyncedCurrent(m, v) => t.maps[m := t.maps[m].(current := v)]
    case DeleteMap(m) => t.maps - {m}
    case _ => t.maps
  }

  function VersionsAfter(t: Tables, op: Op): set<(MapId, Version)> {
    match op
    case IncrementVersion(m, next) => t.versions + {(m, next)}
    case RecordSyncedVersion(m, v) => t.versions + {(m, v)}
    case DeleteMap(m) => set mv | mv in t.versions && mv.0 != m
    case _ => t.versions
  }

  function AliasesAfter(t: Tables, op: Op): map<(MapId, string), Version> {
    match op
    case SetAlias(m, alias, v) => t.aliases[(m, alias) := v]
    case DeleteAlias(m, alias) => t.aliases - {(m, alias)}
    case DeleteMap(m) => map ma | ma in t.aliases && ma.0 != m :: t.aliases[ma]
    case _ => t.aliases
  }

  function MapPermsAfter(t: Tables, op: Op): map<(MapId, User), MapPermission> {
    match op
    case SetMapPermission(m, u, grant) => t.mapPerms[(m, u) := grant]
    case DeleteMapPermission(m, u) => t.mapPerms - {(m, u)}
    case DeleteMap(m) => map mu | mu in t.mapPerms && mu.0 != m :: t.mapPerms[mu]
    case DeleteUser(u) => map mu | mu in t.mapPerms && mu.1 != u :: t.mapPerms[mu]
    case _ => t.mapPerms
  }

  function GroupPermsAfter(t: Tables, op: Op): map<(MapId, GroupId), MapPermission> {
    match op
    case SetGroupMapPermission(m, g, grant) => t.groupPerms[(m, g) := grant]
    case DeleteGroupMapPermission(m, g) => t.groupPerms - {(m, g)}
    case DeleteMap(m) => map mg | mg in t.groupPerms && mg.0 != m :: t.groupPerms[mg]
    case DeleteGroup(g) => map mg | mg in t.groupPerms && mg.1 != g :: t.groupPerms[mg]
    case _ => t.groupPerms
  }

  function KeysAfter(t: Tables, op: Op): map<KeyId, KeyRow>
    requires Commits(t, op)
  {
    match op
    case CreateKey(k, u, pem) => t.keys[k := KeyRow(u, pem, false, false)]
    case RevokeKey(_, k) => t.keys[k := t.keys[k].(revoked := true)]
    case SetScope(_, k, _, _) => t.keys[k := t.keys[k].(scoped := true)]
    case ClearScope(_, k) => t.keys[k := t.keys[k].(scoped := false)]
    case DeleteUser(u) => map k | k in t.keys && t.keys[k].user != u :: t.keys[k]
    case _ => t.keys
  }

  function ScopesAfter(t: Tables, op: Op): map<(KeyId, MapId), seq<Version>> {
    match op
    case SetScope(_, k, m, vs) => t.scopes[(k, m) := vs]
    case DeleteScope(_, k, m) => t.scopes - {(k, m)}
    case ClearScope(_, k) => map km | km in t.scopes && km.0 != k :: t.scopes[km]
    case DeleteMap(m) => map km | km in t.scopes && km.1 != m :: t.scopes[km]
    case DeleteUser(u) => map km | km in t.scopes && !(km.0 in t.keys && t.keys[km.0].user == u) :: t.scopes[km]
    case _ => t.scopes
  }

  function TablesAfter(t: Tables, op: Op): Tables {
    if !Commits(t, op) then t
    else
      Tables(UsersAfter(t, op), GroupsAfter(t, op), MembersAfter(t, op), MapsAfter(t, op), VersionsAfter(t, op),
             AliasesAfter(t, op), MapPermsAfter(t, op), GroupPermsAfter(t, op), KeysAfter(t, op), ScopesAfter(t, op))
  }

  // ----- What a call does to each cache -----

  /** A lookup that misses stores what it then reads, unless it reads nothing. */
  function Filled<K, V>(c: map<K, V>, key: K, answer: Option<V>): map<K, V> {
    if key !in c && answer.Some? then c[key := answer.value] else c
  }

  function MapCacheAfter(s: State, op: Op): map<MapId, MapRow> {
    match op
    case GetMap(m) => Filled(s.cache.maps, m, if m in s.db.maps then Some(s.db.maps[m]) else None)
    case UpsertSyncedMap(m, _, _, _, _) => s.cache.maps - {m}
    case UpdateMap(m, _, _, _, _) => s.cache.maps - {m}
    case UpdateMapOwner(m, _) => s.cache.maps - {m}
    case IncrementVersion(m, _) => s.cache.maps - {m}
    case SetSyncedCurrent(m, _) => s.cache.maps - {m}
    case DeleteMap(m) => s.cache.maps - {m}
    case Expire(kept) => kept.maps
    case Restart => map[]
    case _ => s.cache.maps
  }

  function CurrentCacheAfter(s: State, op: Op): map<MapId, string> {
    match op
    case GetCurrentVersion(m) => Filled(s.cache.currents, m, if m in s.db.maps then Some(s.db.maps[m].current) else None)
    case UpsertSyncedMap(m, _, _, _, _) => s.cache.currents - {m}
    case UpdateMap(m, _, _, _, _) => s.cache.currents - {m}
    case IncrementVersion(m, _) => s.cache.currents - {m}
    case SetSyncedCurrent(m, _) => s.cache.currents - {m}
    case DeleteMap(m) => s.cache.currents - {m}
    case Expire(kept) => kept.currents
    case Restart => map[]
    case _ => s.cache.currents
  }

  function PermsCacheAfter(s: State, op: Op): map<User, Permissions> {
    match op
    case GetPermissions(u) => Filled(s.cache.perms, u, GlobalPermissions(s.db, u))
    case UpdateUser(u, _, rereadOk) => if rereadOk then s.cache.perms - {u} else s.cache.perms
    case DeleteUser(u) => s.cache.perms - {u}
    case UpdateGroup(_, _, rereadOk) => if rereadOk then map[] else s.cache.perms
    case DeleteGroup(_) => map[]
    case ReplaceMembership(u, _) => s.cache.perms - {u}
    case Expire(kept) => kept.perms
    case Restart => map[]
    case _ => s.cache.perms
  }

  function MapPermCacheAfter(s: State, op: Op): map<(MapId, User), MapPermission> {
    match op
    case GetMapPermission(m, u) => Filled(s.cache.mapPerms, (m, u), Some(GrantOf(s.db, m, u)))
    case SetMapPermission(m, u, _) => s.cache.mapPerms - {(m, u)}
    case DeleteMapPermission(m, u) => s.cache.mapPerms - {(m, u)}
    case SetGroupMapPermission(_, _, _) => map[]
    case DeleteGroupMapPermission(_, _) => map[]
    case UpdateGroup(_, _, rereadOk) => if rereadOk then map[] else s.cache.mapPerms
    case DeleteGroup(_) => map[]
    case Expire(kept) => kept.mapPerms
    case Restart => map[]
    case _ => s.cache.mapPerms
  }

  function AliasCacheAfter(s: State, op: Op): map<(MapId, string), Version> {
    match op
    case GetAlias(m, alias) =>
      Filled(s.cache.aliases, (m, alias), if (m, alias) in s.db.aliases then Some(s.db.aliases[(m, alias)]) else None)
    case SetAlias(m, alias, _) => s.cache.aliases - {(m, alias)}
    case DeleteAlias(m, alias) => s.cache.aliases - {(m, alias)}
    case Expire(kept) => kept.aliases
    case Restart => map[]
    case _ => s.cache.aliases
  }

  function KeyCacheAfter(s: State, op: Op): map<KeyId, CachedKey> {
    match op
    case ResolveKey(k) => Filled(s.cache.keys, k, KeyEntry(s.db, k))
    case SetScope(_, k, _, _) => s.cache.keys - {k}
    case ClearScope(_, k) => s.cache.keys - {k}
    case Expire(kept) => kept.keys
    case Restart => map[]
    case _ => s.cache.keys
  }

  /** apiKeyScopedFlag: the cached key's flag if there is one, or the row's; None for a key that is
      unknown or revoked. */
  function ScopedFlag(s: State, k: KeyId): Option<bool> {
    if k in s.cache.keys then Some(s.cache.keys[k].scoped)
    else if ActiveKey(s.db, k) then Some(s.db.keys[k].scoped)
    else None
  }

  function ScopeCacheAfter(s: State, op: Op): map<(KeyId, MapId), ScopeEntry> {
    match op
    case ResolveScope(k, m) =>
      if ScopedFlag(s, k) == Some(true) then Filled(s.cache.scopes, (k, m), Some(ScopeEntryOf(s.db, k, m)))
      else s.cache.scopes
    case SetScope(_, k, m, _) => s.cache.scopes - {(k, m)}
    case DeleteScope(_, k, m) => s.cache.scopes - {(k, m)}
    case Expire(kept) => kept.scopes
    case Restart => map[]
    case _ => s.cache.scopes
  }

  function CachesAfter(s: State, op: Op): Caches {
    if !Commits(s.db, op) then s.cache
    else
      Caches(MapCacheAfter(s, op), CurrentCacheAfter(s, op), PermsCacheAfter(s, op), MapPermCacheAfter(s, op),
             AliasCacheAfter(s, op), KeyCacheAfter(s, op), ScopeCacheAfter(s, op))
  }

  function Apply(s: State, op: Op): State { State(TablesAfter(s.db, op), CachesAfter(s, op)) }

  predicate IsPart(c: Caches, of: Caches) {
    && (forall k | k in c.maps :: k in of.maps && c.maps[k] == of.maps[k])
    && (forall k | k in c.currents :: k in of.currents && c.currents[k] == of.currents[k])
    && (forall k | k in c.perms :: k in of.perms && c.perms[k] == of.perms[k])
    && (forall k | k in c.mapPerms :: k in of.mapPerms && c.mapPerms[k] == of.mapPerms[k])
    && (forall k | k in c.aliases :: k in of.aliases && c.aliases[k] == of.aliases[k])
    && (forall k | k in c.keys :: k in of.keys && c.keys[k] == of.keys[k])
    && (forall k | k in c.scopes :: k in of.scopes && c.scopes[k] == of.scopes[k])
  }

  predicate Possible(s: State, op: Op) { op.Expire? ==> IsPart(op.kept, s.cache) }

  /** A committed call that returned an error after the commit. */
  predicate FailsAfterCommit(op: Op) { (op.UpdateUser? || op.UpdateGroup?) && !op.rereadOk }

  // ----- Referential integrity -----

  ghost predicate Members(members: set<(GroupId, User)>, groups: set<GroupId>, users: set<User>) {
    forall gm | gm in members :: gm.0 in groups && gm.1 in users
  }

  ghost predicate Owners(maps: map<MapId, MapRow>, users: set<User>) { forall m | m in maps :: maps[m].owner in users }

  ghost predicate OfMaps(versions: set<(MapId, Version)>, maps: set<MapId>) { forall mv | mv in versions :: mv.0 in maps }

  ghost predicate Targets(aliases: map<(MapId, string), Version>, versions: set<(MapId, Version)>) {
    forall ma | ma in aliases :: (ma.0, aliases[ma]) in versions
  }

  ghost predicate Pairs<A, B, V>(grants: map<(A, B), V>, first: set<A>, second: set<B>) {
    forall ab | ab in grants :: ab.0 in first && ab.1 in second
  }

  ghost predicate KeyUsers(keys: map<KeyId, KeyRow>, users: set<User>) { forall k | k in keys :: keys[k].user in users }

  /** What the foreign keys guarantee. */
  ghost predicate Keyed(t: Tables) {
    && Members(t.members, t.groups.Keys, t.users.Keys) && Owners(t.maps, t.users.Keys)
    && OfMaps(t.versions, t.maps.Keys) && Targets(t.aliases, t.versions)
    && Pairs(t.mapPerms, t.maps.Keys, t.users.Keys) && Pairs(t.groupPerms, t.maps.Keys, t.groups.Keys)
    && KeyUsers(t.keys, t.users.Keys) && Pairs(t.scopes, t.keys.Keys, t.maps.Keys)
  }

  lemma CallsKeepMembers(t: Tables, op: Op)
    requires Members(t.members, t.groups.Keys, t.users.Keys) && Commits(t, op)
    ensures Members(MembersAfter(t, op), GroupsAfter(t, op).Keys, UsersAfter(t, op).Keys)
  {
  }

  lemma CallsKeepOwners(t: Tables, op: Op)
    requires Owners(t.maps, t.users.Keys) && Commits(t, op)
    ensures Owners(MapsAfter(t, op), UsersAfter(t, op).Keys)
  {
  }

  lemma CallsKeepVersions(t: Tables, op: Op)
    requires OfMaps(t.versions, t.maps.Keys) && Commits(t, op)
    ensures OfMaps(VersionsAfter(t, op), MapsAfter(t, op).Keys)
  {
  }

  lemma CallsKeepAliases(t: Tables, op: Op)
    requires Targets(t.aliases, t.versions) && Commits(t, op)
    ensures Targets(AliasesAfter(t, op), VersionsAfter(t, op))
  {
  }

  lemma CallsKeepUserGrants(t: Tables, op: Op)
    requires Pairs(t.mapPerms, t.maps.Keys, t.users.Keys) && Commits(t, op)
    ensures Pairs(MapPermsAfter(t, op), MapsAfter(t, op).Keys, UsersAfter(t, op).Keys)
  {
  }

  lemma CallsKeepGroupGrants(t: Tables, op: Op)
    requires Pairs(t.groupPerms, t.maps.Keys, t.groups.Keys) && Commits(t, op)
    ensures Pairs(GroupPermsAfter(t, op), MapsAfter(t, op).Keys, GroupsAfter(t, op).Keys)
  {
  }

  lemma CallsKeepApiKeys(t: Tables, op: Op)
    requires KeyUsers(t.keys, t.users.Keys) && Commits(t, op)
    ensures KeyUsers(KeysAfter(t, op), UsersAfter(t, op).Keys)
  {
  }

  lemma CallsKeepScopes(t: Tables, op: Op)
    requires Pairs(t.scopes, t.keys.Keys, t.maps.Keys) && Commits(t, op)
    ensures Pairs(ScopesAfter(t, op), KeysAfter(t, op).Keys, MapsAfter(t, op).Keys)
  {
  }

  /** The cascades leave no dangling reference. */
  lemma CallsKeepKeys(t: Tables, op: Op)
    requires Keyed(t)
    ensures Keyed(TablesAfter(t, op))
  {
    hide Commits, Members, Owners, OfMaps, Targets, Pairs, KeyUsers;
    hide UsersAfter, GroupsAfter, MembersAfter, MapsAfter, VersionsAfter, AliasesAfter, MapPermsAfter, GroupPermsAfter;
    hide KeysAfter, ScopesAfter;
    if Commits(t, op) {
      CallsKeepMembers(t, op);
      CallsKeepOwners(t, op);
      CallsKeepVersions(t, op);
      CallsKeepAliases(t, op);
      CallsKeepUserGrants(t, op);
      CallsKeepGroupGrants(t, op);
      CallsKeepApiKeys(t, op);
      CallsKeepScopes(t, op);
    }
  }
}
