/** Which caches are exactly coherent in runs whose calls do not overlap, and after which calls the
    others may lag. */
module Coherence {
  import opened StoreModel
  import opened Wrappers

  // ----- Caches that never lag -----

  ghost predicate CurrentsOk(maps: map<MapId, MapRow>, c: map<MapId, string>) {
    forall m | m in c :: m in maps && c[m] == maps[m].current
  }

  ghost predicate MapCacheOk(maps: map<MapId, MapRow>, c: map<MapId, MapRow>) {
    forall m | m in c :: m in maps && c[m] == maps[m]
  }

  /** The calls that can change m's row, or only its current version. */
  predicate ConcernsCurrent(op: Op, m: MapId) {
    match op
    case CreateMap(n, _) => n == m
    case UpsertSyncedMap(n, _, _, _, _) => n == m
    case UpdateMap(n, _, _, _, _) => n == m
    case IncrementVersion(n, _) => n == m
    case SetSyncedCurrent(n, _) => n == m
    case DeleteMap(n) => n == m
    case _ => false
  }

  predicate ConcernsMap(op: Op, m: MapId) { ConcernsCurrent(op, m) || (op.UpdateMapOwner? && op.m == m) }

  lemma OtherCallsKeepMap(t: Tables, op: Op, m: MapId)
    requires m in t.maps && Commits(t, op)
    ensures !ConcernsMap(op, m) ==> m in MapsAfter(t, op) && MapsAfter(t, op)[m] == t.maps[m]
    ensures !ConcernsCurrent(op, m) ==> m in MapsAfter(t, op) && MapsAfter(t, op)[m].current == t.maps[m].current
  {
  }

  lemma ExpiryForgets(s: State, op: Op, m: MapId)
    requires Possible(s, op) && op.Expire?
    ensures m in op.kept.maps ==> m in s.cache.maps && op.kept.maps[m] == s.cache.maps[m]
    ensures m in op.kept.currents ==> m in s.cache.currents && op.kept.currents[m] == s.cache.currents[m]
  {
  }

  /** Whatever entry a call leaves in a cache of maps is of a map it does not change. */
  lemma CurrentEntryIsRow(s: State, op: Op, m: MapId)
    requires m in s.cache.currents ==> m in s.db.maps && s.cache.currents[m] == s.db.maps[m].current
    requires Possible(s, op) && Commits(s.db, op) && m in CurrentCacheAfter(s, op)
    ensures m in s.db.maps && CurrentCacheAfter(s, op)[m] == s.db.maps[m].current && !ConcernsCurrent(op, m)
  {
    hide Possible;
    if op.Expire? { ExpiryForgets(s, op, m); }
  }

  lemma MapEntryIsOldOrRead(s: State, op: Op, m: MapId)
    requires Possible(s, op) && m in MapCacheAfter(s, op)
    ensures || (m in s.cache.maps && MapCacheAfter(s, op)[m] == s.cache.maps[m])
            || (m in s.db.maps && MapCacheAfter(s, op)[m] == s.db.maps[m])
  {
    hide Possible;
    if op.Expire? { ExpiryForgets(s, op, m); }
  }

  lemma MapEntryIsNotConcerned(s: State, op: Op, m: MapId)
    requires Commits(s.db, op) && m in s.db.maps && m in MapCacheAfter(s, op)
    ensures !ConcernsMap(op, m)
  {
  }

  lemma MapEntryIsRow(s: State, op: Op, m: MapId)
    requires m in s.cache.maps ==> m in s.db.maps && s.cache.maps[m] == s.db.maps[m]
    requires Possible(s, op) && Commits(s.db, op) && m in MapCacheAfter(s, op)
    ensures m in s.db.maps && MapCacheAfter(s, op)[m] == s.db.maps[m] && !ConcernsMap(op, m)
  {
    hide Possible, Commits, MapCacheAfter, ConcernsMap;
    MapEntryIsOldOrRead(s, op, m);
    MapEntryIsNotConcerned(s, op, m);
  }

  lemma StepKeepsCurrents(s: State, op: Op)
    requires CurrentsOk(s.db.maps, s.cache.currents) && Possible(s, op) && Commits(s.db, op)
    ensures CurrentsOk(MapsAfter(s.db, op), CurrentCacheAfter(s, op))
  {
    hide MapsAfter, CurrentCacheAfter, ConcernsCurrent, Commits, Possible;
    forall m | m in CurrentCacheAfter(s, op)
      ensures m in MapsAfter(s.db, op) && CurrentCacheAfter(s, op)[m] == MapsAfter(s.db, op)[m].current
    {
      CurrentEntryIsRow(s, op, m);
      OtherCallsKeepMap(s.db, op, m);
    }
  }

  lemma StepKeepsMapCache(s: State, op: Op)
    requires MapCacheOk(s.db.maps, s.cache.maps) && Possible(s, op) && Commits(s.db, op)
    ensures MapCacheOk(MapsAfter(s.db, op), MapCacheAfter(s, op))
  {
    hide MapsAfter, MapCacheAfter, ConcernsMap, Commits, Possible;
    forall m | m in MapCacheAfter(s, op)
      ensures m in MapsAfter(s.db, op) && MapCacheAfter(s, op)[m] == MapsAfter(s.db, op)[m]
    {
      MapEntryIsRow(s, op, m);
      OtherCallsKeepMap(s.db, op, m);
    }
  }

  /** The calls that can change what the permissions query yields for u. */
  predicate ConcernsPermissions(op: Op, u: User) {
    match op
    case CreateUser(w, _) => w == u
    case UpdateUser(w, _, _) => w == u
    case DeleteUser(w) => w == u
    case UpdateGroup(_, _, _) => true
    case DeleteGroup(_) => true
    case ReplaceMembership(w, _) => w == u
    case _ => false
  }

  lemma OtherCallsKeepPermissions(t: Tables, op: Op, u: User)
    requires Members(t.members, t.groups.Keys, t.users.Keys) && Commits(t, op) && !ConcernsPermissions(op, u)
    ensures GlobalPermissions(TablesAfter(t, op), u) == GlobalPermissions(t, u)
  {
    hide MapsAfter, VersionsAfter, AliasesAfter, MapPermsAfter, GroupPermsAfter, KeysAfter, ScopesAfter;
    var t' := TablesAfter(t, op);
    assert forall g :: (g, u) in t'.members <==> (g, u) in t.members;
    assert forall g | (g, u) in t.members :: g in t.groups && g in t'.groups && t'.groups[g] == t.groups[g];
    assert u in t'.users <==> u in t.users;
    hide UsersAfter, GroupsAfter, MembersAfter;
    SameRows(t, t', u);
  }

  lemma SameRows(t: Tables, t': Tables, u: User)
    requires forall g :: (g, u) in t'.members <==> (g, u) in t.members
    requires forall g | (g, u) in t.members :: g in t.groups && g in t'.groups && t'.groups[g] == t.groups[g]
    requires (u in t'.users <==> u in t.users) && (u in t.users ==> t'.users[u] == t.users[u])
    ensures GlobalRows(t', u) == GlobalRows(t, u)
  {
    var a := set gm | gm in t.members && gm.1 == u && gm.0 in t.groups :: t.groups[gm.0];
    var b := set gm | gm in t'.members && gm.1 == u && gm.0 in t'.groups :: t'.groups[gm.0];
    forall r | r in a ensures r in b {
      var gm :| gm in t.members && gm.1 == u && gm.0 in t.groups && t.groups[gm.0] == r;
      assert (gm.0, u) in t'.members;
    }
    forall r | r in b ensures r in a {
      var gm :| gm in t'.members && gm.1 == u && gm.0 in t'.groups && t'.groups[gm.0] == r;
      assert (gm.0, u) in t.members;
    }
    assert a == b;
  }

  // ----- Caches that may lag, entry by entry -----

  ghost predicate PermOk(s: State, u: User) {
    u in s.cache.perms ==> GlobalPermissions(s.db, u) == Some(s.cache.perms[u])
  }

  /** An update that fails after its commit drops no entry. */
  predicate LeavesPermissionsBehind(op: Op, u: User) { FailsAfterCommit(op) && ConcernsPermissions(op, u) }

  lemma AppliedParts(s: State, op: Op)
    ensures Apply(s, op).db == if Commits(s.db, op) then TablesAfter(s.db, op) else s.db
    ensures Apply(s, op).cache.perms == if Commits(s.db, op) then PermsCacheAfter(s, op) else s.cache.perms
    ensures Apply(s, op).cache.mapPerms == if Commits(s.db, op) then MapPermCacheAfter(s, op) else s.cache.mapPerms
  {
    hide Commits, UsersAfter, GroupsAfter, MembersAfter, MapsAfter, VersionsAfter, AliasesAfter, MapPermsAfter;
    hide GroupPermsAfter, KeysAfter, ScopesAfter, MapCacheAfter, CurrentCacheAfter, PermsCacheAfter, MapPermCacheAfter;
    hide AliasCacheAfter, KeyCacheAfter, ScopeCacheAfter;
  }

  /** Of the calls that concern a user, those that commit without error drop the user's entry. */
  lemma ConcernedEntryIsDropped(s: State, op: Op, u: User)
    requires Commits(s.db, op) && ConcernsPermissions(op, u) && !LeavesPermissionsBehind(op, u) && u in PermsCacheAfter(s, op)
    ensures u !in s.db.users && u in s.cache.perms
  {
  }

  lemma OtherEntryIsKept(s: State, op: Op, u: User)
    requires Possible(s, op) && !ConcernsPermissions(op, u) && u in PermsCacheAfter(s, op)
    ensures u in s.cache.perms ==> PermsCacheAfter(s, op)[u] == s.cache.perms[u]
    ensures u !in s.cache.perms ==> GlobalPermissions(s.db, u) == Some(PermsCacheAfter(s, op)[u])
  {
    hide GlobalPermissions;
  }

  lemma StepKeepsPermissions(s: State, op: Op, u: User)
    requires Members(s.db.members, s.db.groups.Keys, s.db.users.Keys) && Possible(s, op)
    requires PermOk(s, u) && !(Commits(s.db, op) && LeavesPermissionsBehind(op, u))
    ensures PermOk(Apply(s, op), u)
  {
    hide Commits, Possible, ConcernsPermissions, LeavesPermissionsBehind, PermsCacheAfter, GlobalPermissions, Members;
    hide TablesAfter, Apply;
    AppliedParts(s, op);
    if Commits(s.db, op) && u in PermsCacheAfter(s, op) {
      if ConcernsPermissions(op, u) {
        ConcernedEntryIsDropped(s, op, u);
        NewUserHasNoEntry(s, u);
      } else {
        OtherEntryIsKept(s, op, u);
        OtherCallsKeepPermissions(s.db, op, u);
      }
    }
  }

  lemma NewUserHasNoEntry(s: State, u: User)
    requires PermOk(s, u) && Members(s.db.members, s.db.groups.Keys, s.db.users.Keys)
    requires u !in s.db.users
    ensures u !in s.cache.perms
  {
    assert forall gm | gm in s.db.members :: gm.1 != u;
    assert GlobalRows(s.db, u) == {};
  }

  ghost predicate GrantOk(s: State, m: MapId, u: User) {
    (m, u) in s.cache.mapPerms ==> s.cache.mapPerms[(m, u)] == GrantOf(s.db, m, u)
  }

  /** The calls that can change a user's grant on a map without dropping the entry. */
  predicate LeavesGrantBehind(op: Op, m: MapId, u: User) {
    (op.ReplaceMembership? && op.u == u) || op == DeleteMap(m) || op == DeleteUser(u)
  }

  lemma StepKeepsGrant(s: State, op: Op, m: MapId, u: User)
    requires GrantOk(s, m, u) && Possible(s, op) && !(Commits(s.db, op) && LeavesGrantBehind(op, m, u))
    ensures GrantOk(Apply(s, op), m, u)
  {
    hide GrantOf, Commits, LeavesGrantBehind, Possible, TablesAfter, Apply, MapPermCacheAfter;
    AppliedParts(s, op);
    if Commits(s.db, op) && (m, u) in MapPermCacheAfter(s, op) {
      GrantEntryIsOld(s, op, m, u);
      UnchangedGrant(s, op, m, u);
    }
  }

  lemma GrantEntryIsOld(s: State, op: Op, m: MapId, u: User)
    requires Possible(s, op) && (m, u) in MapPermCacheAfter(s, op)
    ensures (m, u) in s.cache.mapPerms ==> MapPermCacheAfter(s, op)[(m, u)] == s.cache.mapPerms[(m, u)]
    ensures (m, u) !in s.cache.mapPerms ==> MapPermCacheAfter(s, op)[(m, u)] == GrantOf(s.db, m, u)
  {
    hide GrantOf;
  }

  lemma UnchangedGrant(s: State, op: Op, m: MapId, u: User)
    requires Commits(s.db, op) && !LeavesGrantBehind(op, m, u) && Possible(s, op) && (m, u) in MapPermCacheAfter(s, op)
    ensures GrantOf(TablesAfter(s.db, op), m, u) == GrantOf(s.db, m, u)
  {
    hide UsersAfter, GroupsAfter, MapsAfter, VersionsAfter, AliasesAfter, KeysAfter, ScopesAfter;
    var t, t' := s.db, TablesAfter(s.db, op);
    assert (m, u) in t'.mapPerms <==> (m, u) in t.mapPerms;
    assert (m, u) in t.mapPerms ==> t'.mapPerms[(m, u)] == t.mapPerms[(m, u)];
    assert op.DeleteGroup? ==> MapPermCacheAfter(s, op) == map[];
    assert forall g :: (g, u) in t'.members <==> (g, u) in t.members;
    assert forall g :: (m, g) in t'.groupPerms <==> (m, g) in t.groupPerms;
    assert forall g | (m, g) in t.groupPerms :: t'.groupPerms[(m, g)] == t.groupPerms[(m, g)];
    hide MembersAfter, MapPermsAfter, GroupPermsAfter, MapPermCacheAfter;
    SameGrantRows(t, t', m, u);
  }

  lemma SameGrantRows(t: Tables, t': Tables, m: MapId, u: User)
    requires ((m, u) in t'.mapPerms <==> (m, u) in t.mapPerms) && ((m, u) in t.mapPerms ==> t'.mapPerms[(m, u)] == t.mapPerms[(m, u)])
    requires forall g :: (g, u) in t'.members <==> (g, u) in t.members
    requires forall g :: (m, g) in t'.groupPerms <==> (m, g) in t.groupPerms
    requires forall g | (m, g) in t.groupPerms :: t'.groupPerms[(m, g)] == t.groupPerms[(m, g)]
    ensures GrantRows(t', m, u) == GrantRows(t, m, u)
  {
    var a := set gm | gm in t.members && gm.1 == u && (m, gm.0) in t.groupPerms :: t.groupPerms[(m, gm.0)];
    var b := set gm | gm in t'.members && gm.1 == u && (m, gm.0) in t'.groupPerms :: t'.groupPerms[(m, gm.0)];
    forall r | r in a ensures r in b {
      var gm :| gm in t.members && gm.1 == u && (m, gm.0) in t.groupPerms && t.groupPerms[(m, gm.0)] == r;
      assert (gm.0, u) in t'.members;
    }
    forall r | r in b ensures r in a {
      var gm :| gm in t'.members && gm.1 == u && (m, gm.0) in t'.groupPerms && t'.groupPerms[(m, gm.0)] == r;
      assert (gm.0, u) in t.members;
    }
    assert a == b;
  }

  ghost predicate AliasOk(s: State, m: MapId, alias: string) {
    (m, alias) in s.cache.aliases ==> (m, alias) in s.db.aliases && s.cache.aliases[(m, alias)] == s.db.aliases[(m, alias)]
  }

  lemma StepKeepsAlias(s: State, op: Op, m: MapId, alias: string)
    requires AliasOk(s, m, alias) && Possible(s, op) && !(Commits(s.db, op) && op == DeleteMap(m))
    ensures AliasOk(Apply(s, op), m, alias)
  {
    hide UsersAfter, GroupsAfter, MembersAfter, MapsAfter, VersionsAfter, MapPermsAfter, GroupPermsAfter, KeysAfter;
    hide ScopesAfter, MapCacheAfter, CurrentCacheAfter, PermsCacheAfter, MapPermCacheAfter, KeyCacheAfter, ScopeCacheAfter;
  }

  ghost predicate KeyOk(s: State, k: KeyId) {
    k in s.cache.keys ==> KeyEntry(s.db, k) == Some(s.cache.keys[k])
  }

  /** Revoking a key and deleting its user leave the cached key behind. */
  predicate LeavesKeyBehind(t: Tables, op: Op, k: KeyId) {
    (op.RevokeKey? && op.k == k) || (op.DeleteUser? && k in t.keys && t.keys[k].user == op.u)
  }

  lemma StepKeepsKey(s: State, op: Op, k: KeyId)
    requires KeyOk(s, k) && Possible(s, op) && !(Commits(s.db, op) && LeavesKeyBehind(s.db, op, k))
    ensures KeyOk(Apply(s, op), k)
  {
    hide UsersAfter, GroupsAfter, MembersAfter, MapsAfter, VersionsAfter, AliasesAfter, MapPermsAfter, GroupPermsAfter;
    hide ScopesAfter, MapCacheAfter, CurrentCacheAfter, PermsCacheAfter, MapPermCacheAfter, AliasCacheAfter, ScopeCacheAfter;
  }

  ghost predicate ScopeOk(s: State, k: KeyId, m: MapId) {
    (k, m) in s.cache.scopes ==> s.cache.scopes[(k, m)] == ScopeEntryOf(s.db, k, m)
  }

  predicate LeavesScopeBehind(t: Tables, op: Op, k: KeyId, m: MapId) {
    || (op.ClearScope? && op.k == k)
    || op == DeleteMap(m)
    || (op.DeleteUser? && k in t.keys && t.keys[k].user == op.u)
  }

  lemma StepKeepsScope(s: State, op: Op, k: KeyId, m: MapId)
    requires ScopeOk(s, k, m) && Possible(s, op) && !(Commits(s.db, op) && LeavesScopeBehind(s.db, op, k, m))
    ensures ScopeOk(Apply(s, op), k, m)
  {
    hide UsersAfter, GroupsAfter, MembersAfter, MapsAfter, VersionsAfter, AliasesAfter, MapPermsAfter, GroupPermsAfter;
    hide KeysAfter, MapCacheAfter, CurrentCacheAfter, PermsCacheAfter, MapPermCacheAfter, AliasCacheAfter, KeyCacheAfter;
  }

  // ----- Any of them -----

  datatype Entry =
    | PermissionsEntry(u: User) | GrantEntry(m: MapId, u: User) | AliasEntry(m: MapId, alias: string)
    | KeyEntryOf(k: KeyId) | ScopeEntryFor(k: KeyId, m: MapId)

  predicate IsCached(s: State, e: Entry) {
    match e
    case PermissionsEntry(u) => u in s.cache.perms
    case GrantEntry(m, u) => (m, u) in s.cache.mapPerms
    case AliasEntry(m, alias) => (m, alias) in s.cache.aliases
    case KeyEntryOf(k) => k in s.cache.keys
    case ScopeEntryFor(k, m) => (k, m) in s.cache.scopes
  }

  ghost predicate EntryOk(s: State, e: Entry) {
    match e
    case PermissionsEntry(u) => PermOk(s, u)
    case GrantEntry(m, u) => GrantOk(s, m, u)
    case AliasEntry(m, alias) => AliasOk(s, m, alias)
    case KeyEntryOf(k) => KeyOk(s, k)
    case ScopeEntryFor(k, m) => ScopeOk(s, k, m)
  }

  predicate LeavesBehind(t: Tables, op: Op, e: Entry) {
    match e
    case PermissionsEntry(u) => LeavesPermissionsBehind(op, u)
    case GrantEntry(m, u) => LeavesGrantBehind(op, m, u)
    case AliasEntry(m, _) => op == DeleteMap(m)
    case KeyEntryOf(k) => LeavesKeyBehind(t, op, k)
    case ScopeEntryFor(k, m) => LeavesScopeBehind(t, op, k, m)
  }

  /** Every call keeps every cached entry exact that it does not leave behind. */
  lemma StepKeepsEntry(s: State, op: Op, e: Entry)
    requires Members(s.db.members, s.db.groups.Keys, s.db.users.Keys) && Possible(s, op)
    requires EntryOk(s, e) && !(Commits(s.db, op) && LeavesBehind(s.db, op, e))
    ensures EntryOk(Apply(s, op), e)
  {
    hide PermOk, GrantOk, AliasOk, KeyOk, ScopeOk, Members, Possible, Commits, Apply;
    hide LeavesPermissionsBehind, LeavesGrantBehind, LeavesKeyBehind, LeavesScopeBehind;
    match e
    case PermissionsEntry(u) => StepKeepsPermissions(s, op, u);
    case GrantEntry(m, u) => StepKeepsGrant(s, op, m, u);
    case AliasEntry(m, alias) => StepKeepsAlias(s, op, m, alias);
    case KeyEntryOf(k) => StepKeepsKey(s, op, k);
    case ScopeEntryFor(k, m) => StepKeepsScope(s, op, k, m);
  }

  /** A call that leaves entries behind puts none in. */
  lemma LeftBehindWasCached(s: State, op: Op, e: Entry)
    requires Commits(s.db, op) && LeavesBehind(s.db, op, e) && IsCached(Apply(s, op), e)
    ensures IsCached(s, e)
  {
    hide TablesAfter, MapCacheAfter, CurrentCacheAfter, Commits;
  }

  lemma WrongIsCached(s: State, e: Entry)
    requires !EntryOk(s, e)
    ensures IsCached(s, e)
  {
    hide GlobalPermissions, GrantOf, KeyEntry, ScopeEntryOf;
  }

  lemma ColdIsRight(s: State, e: Entry)
    requires s.cache == COLD
    ensures EntryOk(s, e)
  {
    hide GlobalPermissions, GrantOf, KeyEntry, ScopeEntryOf;
  }

  // ----- Runs -----

  ghost predicate StepAt(states: seq<State>, ops: seq<Op>, i: nat)
    requires |states| == |ops| + 1 && i < |ops|
  {
    Possible(states[i], ops[i]) && states[i + 1] == Apply(states[i], ops[i])
  }

  /** A process that starts with cold caches over any consistent tables. */
  ghost predicate Run(states: seq<State>, ops: seq<Op>) {
    && |states| == |ops| + 1 && Keyed(states[0].db) && states[0].cache == COLD
    && forall i | 0 <= i < |ops| :: StepAt(states, ops, i)
  }

  ghost predicate ExactRows(s: State) {
    Keyed(s.db) && CurrentsOk(s.db.maps, s.cache.currents) && MapCacheOk(s.db.maps, s.cache.maps)
  }

  lemma StepKeepsExact(s: State, op: Op)
    requires ExactRows(s) && Possible(s, op)
    ensures ExactRows(Apply(s, op))
  {
    hide Keyed, CurrentsOk, MapCacheOk, Possible, Commits;
    CallsKeepKeys(s.db, op);
    if Commits(s.db, op) {
      StepKeepsCurrents(s, op);
      StepKeepsMapCache(s, op);
      hide MapsAfter, CurrentCacheAfter, MapCacheAfter;
    }
  }

  lemma {:induction false} RunIsExact(states: seq<State>, ops: seq<Op>, i: nat)
    requires Run(states, ops) && i < |states|
    ensures ExactRows(states[i])
  {
    hide Keyed, Apply, Possible;
    if i > 0 {
      RunIsExact(states, ops, i - 1);
      hide ExactRows;
      assert StepAt(states, ops, i - 1);
      StepKeepsExact(states[i - 1], ops[i - 1]);
    }
  }

  /** Every hit of the current-version cache equals the row, whatever its ttl, and so does every hit of
      the map cache. */
  lemma CurrentVersionHitsAreExact(states: seq<State>, ops: seq<Op>, i: nat, m: MapId)
    requires Run(states, ops) && i < |states|
    ensures var s := states[i];
            && (m in s.cache.currents ==> m in s.db.maps && s.cache.currents[m] == s.db.maps[m].current)
            && (m in s.cache.maps ==> m in s.db.maps && s.cache.maps[m] == s.db.maps[m])
  {
    hide Keyed, Apply, Possible;
    RunIsExact(states, ops, i);
  }

  lemma MembersOf(s: State)
    requires ExactRows(s)
    ensures Members(s.db.members, s.db.groups.Keys, s.db.users.Keys)
  {
  }

  /** A cached entry that differs from the tables was left behind by a committed call of the kind its
      cache does not follow, while it was in the cache, and has been there ever since; nothing else makes
      an entry lag. */
  lemma {:induction false} WrongEntryWasLeftBehind(states: seq<State>, ops: seq<Op>, i: nat, e: Entry) returns (k: nat)
    requires Run(states, ops) && i < |states| && !EntryOk(states[i], e)
    ensures k < i && Commits(states[k].db, ops[k]) && LeavesBehind(states[k].db, ops[k], e)
    ensures forall j | k <= j <= i :: IsCached(states[j], e)
  {
    hide Keyed, Members, ExactRows, Apply, Possible, EntryOk, IsCached, Commits, LeavesBehind;
    WrongIsCached(states[i], e);
    if i == 0 {
      ColdIsRight(states[0], e);
    } else {
      assert StepAt(states, ops, i - 1);
      if EntryOk(states[i - 1], e) {
        RunIsExact(states, ops, i - 1);
        MembersOf(states[i - 1]);
        if !(Commits(states[i - 1].db, ops[i - 1]) && LeavesBehind(states[i - 1].db, ops[i - 1], e)) {
          StepKeepsEntry(states[i - 1], ops[i - 1], e);
        }
        k := i - 1;
        LeftBehindWasCached(states[k], ops[k], e);
      } else {
        k := WrongEntryWasLeftBehind(states, ops, i - 1, e);
      }
    }
  }

  /** As long as no update failed after its commit, every hit of the permissions cache is the OR over
      the user's row and the rows of all its groups. */
  lemma PermissionHitsAreExact(states: seq<State>, ops: seq<Op>, i: nat, u: User)
    requires Run(states, ops) && i < |states|
    requires forall j | 0 <= j < i :: !FailsAfterCommit(ops[j])
    ensures u in states[i].cache.perms ==> GlobalPermissions(states[i].db, u) == Some(states[i].cache.perms[u])
  {
    hide Run, GlobalPermissions, Commits, FailsAfterCommit;
    if !PermOk(states[i], u) {
      var k := WrongEntryWasLeftBehind(states, ops, i, PermissionsEntry(u));
    }
  }

  lemma LookupFillsGrant(s: State, m: MapId, u: User)
    requires (m, u) !in s.cache.mapPerms
    ensures var s' := Apply(s, GetMapPermission(m, u));
            s'.db == s.db && (m, u) in s'.cache.mapPerms && s'.cache.mapPerms[(m, u)] == GrantOf(s.db, m, u)
  {
    hide GrantOf;
  }

  lemma ResyncKeepsEntry(s: State, m: MapId, u: User)
    requires (m, u) in s.cache.mapPerms
    ensures var s' := Apply(s, ReplaceMembership(u, {}));
            && (m, u) in s'.cache.mapPerms && s'.cache.mapPerms[(m, u)] == s.cache.mapPerms[(m, u)]
            && s'.db == s.db.(members := s'.db.members) && forall g :: (g, u) !in s'.db.members
  {
  }

  /** Such a lag does happen: a user who lost the group that let it edit a map still holds the cached
      grant. */
  lemma MembershipResyncLeavesGrant(m: MapId, u: User, g: GroupId) returns (states: seq<State>, ops: seq<Op>)
    ensures Run(states, ops) && |states| > 0
    ensures var s := states[|states| - 1];
            && (m, u) in s.cache.mapPerms && s.cache.mapPerms[(m, u)].canEdit
            && !GrantOf(s.db, m, u).canEdit && !GrantOf(s.db, m, u).GrantsVisibility()
  {
    var db := GrantThroughGroup(m, u, g);
    ops := [GetMapPermission(m, u), ReplaceMembership(u, {})];
    hide Keyed, GrantOf, Apply;
    var s0 := State(db, COLD);
    var s1 := Apply(s0, ops[0]);
    var s2 := Apply(s1, ops[1]);
    states := [s0, s1, s2];
    LookupFillsGrant(s0, m, u);
    ResyncKeepsEntry(s1, m, u);
    assert StepAt(states, ops, 0) && StepAt(states, ops, 1);
    NoGrant(s2.db, m, u);
  }

  /** A user who may edit a map because of the one group it belongs to. */
  lemma GrantThroughGroup(m: MapId, u: User, g: GroupId) returns (db: Tables)
    ensures Keyed(db) && GrantOf(db, m, u).canEdit && (m, u) !in db.mapPerms
  {
    var none := Permissions(false, false, false, false, false, false, false);
    var edit := MapPermission(false, true, false, false, false);
    db := Tables(map[u := none], map[g := none], {(g, u)}, map[m := MapRow("", "", false, false, u)], {}, map[],
                 map[], map[(m, g) := edit], map[], map[]);
    assert (g, u) in db.members && (m, g) in db.groupPerms;
    assert edit in GrantRows(db, m, u);
  }

  lemma NoGrant(t: Tables, m: MapId, u: User)
    requires (forall g :: (g, u) !in t.members) && (m, u) !in t.mapPerms
    ensures GrantOf(t, m, u) == MapPermission(false, false, false, false, false)
  {
    assert forall gm | gm in t.members :: gm == (gm.0, gm.1);
    assert GrantRows(t, m, u) == {};
  }

  /** And an update that fails on its second read leaves the permissions it replaced in the cache. */
  lemma FailedRereadLeavesPermissions(u: User) returns (states: seq<State>, ops: seq<Op>)
    ensures Run(states, ops) && |states| > 0
    ensures var s := states[|states| - 1];
            u in s.cache.perms && s.cache.perms[u].isAdmin && GlobalPermissions(s.db, u).Some? && !GlobalPermissions(s.db, u).value.isAdmin
  {
    var none := Permissions(false, false, false, false, false, false, false);
    var db := Tables(map[u := none.(isAdmin := true)], map[], {}, map[], {}, map[], map[], map[], map[], map[]);
    ops := [GetPermissions(u), UpdateUser(u, none, false)];
    var s0 := State(db, COLD);
    var s1 := Apply(s0, ops[0]);
    states := [s0, s1, Apply(s1, ops[1])];
    assert GlobalRows(db, u) == {none.(isAdmin := true)};
    assert GlobalRows(states[2].db, u) == {none};
    assert none in GlobalRows(states[2].db, u);
    assert StepAt(states, ops, 0) && StepAt(states, ops, 1);
  }

  // ----- Every kind of entry does lag in some run -----

  lemma TwoCalls(db: Tables, first: Op, second: Op) returns (states: seq<State>, ops: seq<Op>)
    requires Keyed(db) && !first.Expire? && !second.Expire?
    ensures Run(states, ops) && |states| == 3
    ensures states[2] == Apply(Apply(State(db, COLD), first), second)
  {
    hide Keyed, Apply;
    var s0 := State(db, COLD);
    ops := [first, second];
    states := [s0, Apply(s0, first), Apply(Apply(s0, first), second)];
    assert StepAt(states, ops, 0) && StepAt(states, ops, 1);
  }

  const NOBODY := Permissions(false, false, false, false, false, false, false)

  /** One user who owns one map with one version, an alias and a scoped key. */
  function SmallTables(m: MapId, alias: string, k: KeyId): Tables {
    Tables(map["owner" := NOBODY], map[], {}, map[m := MapRow("", "", false, false, "owner")], {(m, "1")},
           map[(m, alias) := "1"], map[], map[], map[k := KeyRow("owner", "", false, true)], map[(k, m) := []])
  }

  lemma SmallTablesAreKeyed(m: MapId, alias: string, k: KeyId)
    ensures Keyed(SmallTables(m, alias, k))
  {
  }

  lemma AliasOutlivesMap(m: MapId, alias: string, k: KeyId)
    ensures !AliasOk(Apply(Apply(State(SmallTables(m, alias, k), COLD), GetAlias(m, alias)), DeleteMap(m)), m, alias)
  {
  }

  lemma KeyOutlivesRevocation(m: MapId, alias: string, k: KeyId)
    ensures !KeyOk(Apply(Apply(State(SmallTables(m, alias, k), COLD), ResolveKey(k)), RevokeKey("owner", k)), k)
  {
  }

  lemma ScopeOutlivesClear(m: MapId, alias: string, k: KeyId)
    ensures !ScopeOk(Apply(Apply(State(SmallTables(m, alias, k), COLD), ResolveScope(k, m)), ClearScope("owner", k)), k, m)
  {
  }

  /** Whatever entry of these five caches one takes, there is a run that leaves it wrong: an alias of a
      deleted map, a revoked key, a scope that was cleared, a grant of a group the user has left,
      permissions whose update could not be read back. */
  lemma EveryEntryCanLag(e: Entry) returns (states: seq<State>, ops: seq<Op>)
    ensures Run(states, ops) && |states| > 0 && !EntryOk(states[|states| - 1], e)
  {
    hide Run, Keyed, Apply, SmallTables, GlobalPermissions, GrantOf, AliasOk, KeyOk, ScopeOk;
    match e
    case PermissionsEntry(u) => states, ops := FailedRereadLeavesPermissions(u);
    case GrantEntry(m, u) => states, ops := MembershipResyncLeavesGrant(m, u, 0);
    case AliasEntry(m, alias) =>
      SmallTablesAreKeyed(m, alias, 0);
      AliasOutlivesMap(m, alias, 0);
      states, ops := TwoCalls(SmallTables(m, alias, 0), GetAlias(m, alias), DeleteMap(m));
    case KeyEntryOf(k) =>
      SmallTablesAreKeyed(0, "", k);
      KeyOutlivesRevocation(0, "", k);
      states, ops := TwoCalls(SmallTables(0, "", k), ResolveKey(k), RevokeKey("owner", k));
    case ScopeEntryFor(k, m) =>
      SmallTablesAreKeyed(m, "", k);
      ScopeOutlivesClear(m, "", k);
      states, ops := TwoCalls(SmallTables(m, "", k), ResolveScope(k, m), ClearScope("owner", k));
  }

  // ----- Every cache at once -----

  /** No cached answer differs from what the tables say. */
  ghost predicate Coherent(s: State) { ExactRows(s) && forall e :: EntryOk(s, e) }

  /** The calls after which some cache may lag. */
  predicate MayLeaveBehind(op: Op) {
    || FailsAfterCommit(op) || op.ReplaceMembership? || op.DeleteMap? || op.DeleteUser? || op.RevokeKey? || op.ClearScope?
  }

  /** Every other call, lookups and all other writes, keeps coherent caches coherent. */
  lemma CallsKeepCoherent(s: State, op: Op)
    requires Coherent(s) && Possible(s, op) && !MayLeaveBehind(op)
    ensures Coherent(Apply(s, op))
  {
    hide EntryOk, ExactRows, Members, Possible, Commits, Apply, LeavesBehind;
    StepKeepsExact(s, op);
    MembersOf(s);
    forall e ensures EntryOk(Apply(s, op), e) {
      if LeavesBehind(s.db, op, e) { OnlyTheseLeaveBehind(s.db, op, e); }
      StepKeepsEntry(s, op, e);
    }
  }

  lemma OnlyTheseLeaveBehind(t: Tables, op: Op, e: Entry)
    requires LeavesBehind(t, op, e)
    ensures MayLeaveBehind(op)
  {
  }

  predicate IsLookup(op: Op) {
    || op.GetMap? || op.GetCurrentVersion? || op.GetPermissions? || op.GetMapPermission? || op.GetAlias?
    || op.ResolveKey? || op.ResolveScope?
  }

  lemma LookupsChangeNoAccount(t: Tables, op: Op)
    requires IsLookup(op)
    ensures UsersAfter(t, op) == t.users && GroupsAfter(t, op) == t.groups && MembersAfter(t, op) == t.members
    ensures MapPermsAfter(t, op) == t.mapPerms && GroupPermsAfter(t, op) == t.groupPerms
  {
  }

  lemma LookupsChangeNoMap(t: Tables, op: Op)
    requires IsLookup(op)
    ensures Commits(t, op) && MapsAfter(t, op) == t.maps && VersionsAfter(t, op) == t.versions
    ensures AliasesAfter(t, op) == t.aliases && KeysAfter(t, op) == t.keys && ScopesAfter(t, op) == t.scopes
  {
  }

  lemma LookupsChangeNoTable(s: State, op: Op)
    requires IsLookup(op)
    ensures Apply(s, op).db == s.db && Possible(s, op) && !MayLeaveBehind(op)
  {
    hide CachesAfter, Commits, UsersAfter, GroupsAfter, MembersAfter, MapsAfter, VersionsAfter, AliasesAfter;
    hide MapPermsAfter, GroupPermsAfter, KeysAfter, ScopesAfter;
    LookupsChangeNoAccount(s.db, op);
    LookupsChangeNoMap(s.db, op);
  }
}
