/** API-key scopes: a flag and entries per key, what a key reaches over every run of calls, and the
    version-scoped routes. */
module Scope {
  import opened Authz
  import opened StoreModel
  import opened Wrappers
  import C = Coherence
  import Lists
  import Numerals
  import S = Store

  // ----- Runs on the tables, caches cold -----

  ghost predicate StepAt(ts: seq<Tables>, ops: seq<Op>, i: nat)
    requires |ts| == |ops| + 1 && i < |ops|
  {
    ts[i + 1] == TablesAfter(ts[i], ops[i])
  }

  ghost predicate Run(ts: seq<Tables>, ops: seq<Op>) {
    |ts| == |ops| + 1 && forall i | 0 <= i < |ops| :: StepAt(ts, ops, i)
  }

  /** Call i committed, and it set, removed or cascaded away the entry of k for m. */
  predicate Concerns(t: Tables, op: Op, k: KeyId, m: MapId) {
    && Commits(t, op)
    && match op {
         case SetScope(_, k', m', _) => k' == k && m' == m
         case DeleteScope(_, k', m') => k' == k && m' == m
         case ClearScope(_, k') => k' == k
         case DeleteMap(m') => m' == m
         case DeleteUser(u) => k in t.keys && t.keys[k].user == u
         case _ => false
       }
  }

  /** Call j granted m, and nothing concerned the entry after it. */
  ghost predicate GrantedAt(ts: seq<Tables>, ops: seq<Op>, i: nat, k: KeyId, m: MapId, vs: seq<Version>, j: nat)
    requires |ts| == |ops| + 1 && i <= |ops|
  {
    && j < i && Concerns(ts[j], ops[j], k, m) && ops[j].SetScope? && ops[j].vs == vs
    && forall l | j < l < i :: !Concerns(ts[l], ops[l], k, m)
  }

  lemma EntryAfter(t: Tables, op: Op, k: KeyId, m: MapId)
    requires Commits(t, op)
    ensures !Concerns(t, op, k, m) ==> ((k, m) in ScopesAfter(t, op) <==> (k, m) in t.scopes)
                                       && ((k, m) in t.scopes ==> ScopesAfter(t, op)[(k, m)] == t.scopes[(k, m)])
    ensures Concerns(t, op, k, m) && op.SetScope? ==> (k, m) in ScopesAfter(t, op) && ScopesAfter(t, op)[(k, m)] == op.vs
    ensures Concerns(t, op, k, m) && !op.SetScope? ==> (k, m) !in ScopesAfter(t, op)
  {
    hide Commits;
  }

  lemma StepOnEntry(t: Tables, op: Op, k: KeyId, m: MapId)
    ensures var t' := TablesAfter(t, op);
            && (!Concerns(t, op, k, m) ==> ((k, m) in t'.scopes <==> (k, m) in t.scopes)
                                           && ((k, m) in t.scopes ==> t'.scopes[(k, m)] == t.scopes[(k, m)]))
            && (Concerns(t, op, k, m) && op.SetScope? ==> (k, m) in t'.scopes && t'.scopes[(k, m)] == op.vs)
            && (Concerns(t, op, k, m) && !op.SetScope? ==> (k, m) !in t'.scopes)
  {
    hide UsersAfter, GroupsAfter, MembersAfter, MapsAfter, VersionsAfter, AliasesAfter, MapPermsAfter, GroupPermsAfter;
    hide KeysAfter, ScopesAfter, Commits;
    if Commits(t, op) {
      EntryAfter(t, op, k, m);
      hide Concerns;
    }
  }

  ghost predicate LastGranted(ts: seq<Tables>, ops: seq<Op>, i: nat, k: KeyId, m: MapId, vs: seq<Version>)
    requires |ts| == |ops| + 1 && i <= |ops|
  {
    exists j: nat :: GrantedAt(ts, ops, i, k, m, vs, j)
  }

  lemma OneMoreCall(ts: seq<Tables>, ops: seq<Op>, i: nat, k: KeyId, m: MapId, vs: seq<Version>)
    requires |ts| == |ops| + 1 && i < |ops|
    ensures LastGranted(ts, ops, i + 1, k, m, vs) <==>
              if Concerns(ts[i], ops[i], k, m) then ops[i].SetScope? && ops[i].vs == vs else LastGranted(ts, ops, i, k, m, vs)
  {
    hide Concerns;
    var n := i + 1;
    if Concerns(ts[i], ops[i], k, m) {
      assert ops[i].SetScope? && ops[i].vs == vs ==> GrantedAt(ts, ops, n, k, m, vs, i);
      assert forall j: nat | GrantedAt(ts, ops, n, k, m, vs, j) :: j == i;
    } else {
      assert forall j: nat | GrantedAt(ts, ops, n, k, m, vs, j) :: GrantedAt(ts, ops, i, k, m, vs, j);
      assert forall j: nat | GrantedAt(ts, ops, i, k, m, vs, j) :: GrantedAt(ts, ops, n, k, m, vs, j);
    }
  }

  /** From no entry on, a key has an entry for a map exactly if the last call that concerned it granted
      the map, and the entry's versions are those of that call. */
  lemma {:induction false} EntryIffLastGranted(ts: seq<Tables>, ops: seq<Op>, i: nat, k: KeyId, m: MapId, vs: seq<Version>)
    requires Run(ts, ops) && i < |ts| && (k, m) !in ts[0].scopes
    ensures (k, m) in ts[i].scopes && ts[i].scopes[(k, m)] == vs <==> LastGranted(ts, ops, i, k, m, vs)
  {
    hide Concerns, TablesAfter;
    if i > 0 {
      EntryIffLastGranted(ts, ops, i - 1, k, m, vs);
      OneMoreCall(ts, ops, i - 1, k, m, vs);
      hide LastGranted;
      assert StepAt(ts, ops, i - 1);
      StepOnEntry(ts[i - 1], ops[i - 1], k, m);
    }
  }

  // ----- Reach -----

  predicate Scoped(t: Tables, k: KeyId) { ActiveKey(t, k) && t.keys[k].scoped }

  predicate Reaches(t: Tables, k: KeyId, m: MapId) { KeyAllows(t, Some(k), m) == Ok(true) }

  /** From no entry on, a scoped key reaches a map exactly if the last call that concerned its entry
      for the map was a grant. */
  lemma ReachIffLastGranted(ts: seq<Tables>, ops: seq<Op>, i: nat, k: KeyId, m: MapId)
    requires Run(ts, ops) && i < |ts| && (k, m) !in ts[0].scopes && Scoped(ts[i], k)
    ensures Reaches(ts[i], k, m) <==> exists vs :: LastGranted(ts, ops, i, k, m, vs)
  {
    hide LastGranted, StepAt;
    forall vs ensures (k, m) in ts[i].scopes && ts[i].scopes[(k, m)] == vs <==> LastGranted(ts, ops, i, k, m, vs) {
      EntryIffLastGranted(ts, ops, i, k, m, vs);
    }
    assert (k, m) in ts[i].scopes ==> LastGranted(ts, ops, i, k, m, ts[i].scopes[(k, m)]);
  }

  /** Whatever is granted, some map is out of a scoped key's reach. */
  lemma ScopedNeverReachesAll(t: Tables, k: KeyId) returns (m: MapId)
    requires Scoped(t, k)
    ensures !Reaches(t, k, m)
  {
    var mapped := set km | km in t.scopes :: km.1;
    m := Unused(mapped);
    assert (k, m) in t.scopes ==> (k, m).1 in mapped;
  }

  lemma Unused(s: set<MapId>) returns (m: MapId)
    ensures forall x | x in s :: x < m
    decreases |s|
  {
    if s == {} {
      m := 0;
    } else {
      var x :| x in s;
      var n := Unused(s - {x});
      m := if n > x then n else x + 1;
      assert forall y | y in s :: y in s - {x} || y == x;
    }
  }

  /** Deleting an entry takes that map out of reach and changes nothing else; in particular the last
      deletion leaves the key nothing. */
  lemma DeletionShrinks(t: Tables, u: User, k: KeyId, m: MapId, n: MapId)
    requires Scoped(t, k) && Commits(t, DeleteScope(u, k, m))
    ensures var t' := TablesAfter(t, DeleteScope(u, k, m));
            && Scoped(t', k)
            && (Reaches(t', k, n) <==> Reaches(t, k, n) && n != m)
            && ((forall x | (k, x) in t.scopes :: x == m) ==> !Reaches(t', k, n))
  {
  }

  /** The scoped flag changes by grants and by Clear only. */
  lemma StepKeepsScoped(t: Tables, op: Op, k: KeyId)
    requires Scoped(t, k) && ActiveKey(TablesAfter(t, op), k)
    ensures Scoped(TablesAfter(t, op), k) || (Commits(t, op) && op.ClearScope? && op.k == k)
  {
    hide UsersAfter, GroupsAfter, MembersAfter, MapsAfter, VersionsAfter, AliasesAfter, MapPermsAfter, GroupPermsAfter;
    hide ScopesAfter;
  }

  /** Only Clear restores a scoped key's full reach: between a state where the key is scoped and a later
      one where it reaches every map, with the key active throughout, a Clear of it was committed. */
  lemma {:induction false} OnlyClearRestores(ts: seq<Tables>, ops: seq<Op>, i: nat, j: nat, k: KeyId) returns (l: nat)
    requires Run(ts, ops) && i <= j < |ts| && Scoped(ts[i], k)
    requires forall n | i <= n <= j :: ActiveKey(ts[n], k)
    requires forall m :: Reaches(ts[j], k, m)
    ensures i <= l < j && Commits(ts[l], ops[l]) && ops[l].ClearScope? && ops[l].k == k
    decreases j - i
  {
    hide Commits, TablesAfter, Reaches;
    if i == j {
      var m := ScopedNeverReachesAll(ts[i], k);
      assert false;
    } else {
      assert StepAt(ts, ops, i);
      if Scoped(ts[i + 1], k) {
        l := OnlyClearRestores(ts, ops, i + 1, j, k);
      } else {
        StepKeepsScoped(ts[i], ops[i], k);
        l := i;
      }
    }
  }

  /** And it does so at once, whatever the caches hold. */
  lemma ClearRestoresAtOnce(s: State, u: User, k: KeyId, m: MapId)
    requires Commits(s.db, ClearScope(u, k))
    ensures S.ScopeAnswer(Apply(s, ClearScope(u, k)), k, m) == Some(None)
    ensures Reaches(Apply(s, ClearScope(u, k)).db, k, m)
  {
    hide UsersAfter, GroupsAfter, MembersAfter, MapsAfter, VersionsAfter, AliasesAfter, MapPermsAfter, GroupPermsAfter;
    hide MapCacheAfter, CurrentCacheAfter, PermsCacheAfter, MapPermCacheAfter, AliasCacheAfter, ScopesAfter, ScopeCacheAfter;
  }

  /** Clear drops the cached flag and leaves the cached entries. */
  lemma AfterClear(s: State, u: User, k: KeyId)
    requires KeyOf(s.db, u, k)
    ensures var s' := Apply(s, ClearScope(u, k));
            && KeyOf(s'.db, u, k) && s'.db.maps == s.db.maps && (forall m :: (k, m) !in s'.db.scopes)
            && s'.cache.scopes == s.cache.scopes && k !in s'.cache.keys
  {
  }

  lemma AfterGrant(s: State, u: User, k: KeyId, n: MapId, vs: seq<Version>)
    requires KeyOf(s.db, u, k) && n in s.db.maps
    ensures var s' := Apply(s, SetScope(u, k, n, vs));
            && Scoped(s'.db, k) && s'.db.scopes == s.db.scopes[(k, n) := vs]
            && s'.cache.scopes == s.cache.scopes - {(k, n)} && k !in s'.cache.keys
  {
  }

  predicate Admitted(answer: Option<Option<ScopeEntry>>) {
    answer.Some? && (answer.value.Some? ==> answer.value.value.inScope)
  }

  /** After Clear and a grant of one map a key's entries are that map's alone, yet with warm caches it is
      let in at another map as well exactly if an entry for that one is still cached: Clear drops the
      cached flag, and the grant brings what it left back to life. */
  lemma ClearedEntryRevivesIff(s: State, u: User, k: KeyId, m: MapId, n: MapId, vs: seq<Version>)
    requires KeyOf(s.db, u, k) && n in s.db.maps && m != n
    ensures var s' := Apply(Apply(s, ClearScope(u, k)), SetScope(u, k, n, vs));
            && !Reaches(s'.db, k, m)
            && (Admitted(S.ScopeAnswer(s', k, m)) <==> (k, m) in s.cache.scopes && s.cache.scopes[(k, m)].inScope)
  {
    hide Apply;
    AfterClear(s, u, k);
    AfterGrant(Apply(s, ClearScope(u, k)), u, k, n, vs);
  }

  /** Whenever the scope check answers otherwise than the tables would, either the cached key was left
      behind by its revocation or its user's deletion, or the cached entry by a Clear or by the deletion
      of its map or user; and whichever it was has been cached ever since. */
  lemma WrongScopeAnswerWasLeftBehind(states: seq<State>, ops: seq<Op>, i: nat, k: KeyId, m: MapId) returns (e: C.Entry, j: nat)
    requires C.Run(states, ops) && i < |states| && S.ScopeAnswer(states[i], k, m) != S.ScopeOnTables(states[i].db, k, m)
    ensures e == C.KeyEntryOf(k) || e == C.ScopeEntryFor(k, m)
    ensures j < i && Commits(states[j].db, ops[j]) && C.LeavesBehind(states[j].db, ops[j], e)
    ensures forall l | j <= l <= i :: C.IsCached(states[l], e)
  {
    hide C.Run, Commits, C.LeavesBehind, C.IsCached, C.EntryOk;
    e := if C.EntryOk(states[i], C.KeyEntryOf(k)) then C.ScopeEntryFor(k, m) else C.KeyEntryOf(k);
    if C.EntryOk(states[i], C.KeyEntryOf(k)) && C.EntryOk(states[i], C.ScopeEntryFor(k, m)) {
      RightEntriesAnswerRight(states[i], k, m);
    }
    j := C.WrongEntryWasLeftBehind(states, ops, i, e);
  }

  lemma RightEntriesAnswerRight(s: State, k: KeyId, m: MapId)
    requires C.EntryOk(s, C.KeyEntryOf(k)) && C.EntryOk(s, C.ScopeEntryFor(k, m))
    ensures S.ScopeAnswer(s, k, m) == S.ScopeOnTables(s.db, k, m)
  {
  }

  // ----- Versions -----

  function KeyAllowsVersion(t: Tables, key: Option<KeyId>, m: MapId, v: Version): Check {
    if key == None then Ok(true)
    else
      match S.ScopeOnTables(t, key.value, m)
      case None => Err(InvalidKey)
      case Some(None) => Ok(true)
      case Some(Some(entry)) => Ok(entry.inScope && (entry.versions == [] || v in entry.versions))
  }

  /** A version is admitted without a key, by an active unscoped one, and by a scoped one with an entry for
      the map that lists no versions or this one. */
  ghost predicate VersionAdmitted(t: Tables, key: Option<KeyId>, m: MapId, v: Version) {
    key.Some? ==>
      && key.value in t.keys && !t.keys[key.value].revoked
      && (t.keys[key.value].scoped ==>
            (key.value, m) in t.scopes && (t.scopes[(key.value, m)] == [] || v in t.scopes[(key.value, m)]))
  }

  lemma VersionAdmittedIff(t: Tables, key: Option<KeyId>, m: MapId, v: Version)
    ensures KeyAllowsVersion(t, key, m, v) == Ok(true) <==> VersionAdmitted(t, key, m, v)
    ensures KeyAllowsVersion(t, key, m, v).Err? <==> key.Some? && !(key.value in t.keys && !t.keys[key.value].revoked)
  {
  }

  /** apiKeyMapVersionAllowed, through APIKeyCanAccessMapVersion. */
  method ApiKeyMapVersionAllowed(st: S.Store, key: Option<KeyId>, m: MapId, v: Version) returns (r: Check)
    requires C.Coherent(st.State())
    modifies st`cache
    ensures r == KeyAllowsVersion(st.db, key, m, v) && C.Coherent(st.State())
  {
    hide C.Coherent, Apply;
    if key == None { return Ok(true); }
    S.CoherentAnswers(st.State(), m, "", "", key.value);
    LookupIsSafe(st.State(), ResolveScope(key.value, m));
    var scope := st.ResolveAPIKeyMapScope(key.value, m);
    if scope == None { return Err(InvalidKey); }
    if scope.value == None { return Ok(true); }
    var entry := scope.value.value;
    if !entry.inScope { return Ok(false); }
    if |entry.versions| == 0 { return Ok(true); }
    return Ok(v in entry.versions);
  }

  /** APIKeyScopedVersions: the whitelist to filter a listing by, if there is one. */
  function Whitelist(t: Tables, key: Option<KeyId>, m: MapId): Result<Option<seq<Version>>, Failure> {
    if key == None then Ok(None)
    else
      match S.ScopeOnTables(t, key.value, m)
      case None => Err(InvalidKey)
      case Some(None) => Ok(None)
      case Some(Some(entry)) => Ok(if entry.inScope && entry.versions != [] then Some(entry.versions) else None)
  }

  function OnList(allowed: seq<Version>): Version -> bool { (v: Version) => v in allowed }

  function Listing(versions: seq<Version>, allowed: Option<seq<Version>>): seq<Version> {
    if allowed == None then versions else Lists.Filter(versions, OnList(allowed.value))
  }

  /** MapVersionsHandler's filter over the recorded versions. */
  method FilterVersions(versions: seq<Version>, allowed: Option<seq<Version>>) returns (shown: seq<Version>)
    ensures shown == Listing(versions, allowed)
  {
    if allowed == None { return versions; }
    shown := [];
    for i := 0 to |versions|
      invariant shown == Lists.Filter(versions[..i], OnList(allowed.value))
    {
      Lists.FilterSnoc(versions, OnList(allowed.value), i);
      if versions[i] in allowed.value { shown := shown + [versions[i]]; }
    }
    assert versions[..|versions|] == versions;
  }

  /** The listing as it is sent, or an error, once the map check has been passed or skipped. */
  function Shown(t: Tables, key: Option<KeyId>, m: MapId, versions: seq<Version>): Result<seq<Version>, Failure> {
    match Whitelist(t, key, m)
    case Err(e) => Err(e)
    case Ok(allowed) => Ok(Listing(versions, allowed))
  }

  /** The listing shows exactly the versions the version check admits if and only if the map check, made
      before it, passes: past a refusal it would show every version while the version check admits none. */
  lemma ListingIsExactIff(t: Tables, key: Option<KeyId>, m: MapId, versions: seq<Version>)
    requires versions != []
    ensures var shown := Shown(t, key, m, versions);
            && (shown.Ok? && (forall v :: v in shown.value <==> v in versions && KeyAllowsVersion(t, key, m, v) == Ok(true))
                <==> KeyAllows(t, key, m) == Ok(true))
            && (KeyAllows(t, key, m) == Ok(false) ==> shown == Ok(versions) && forall v :: KeyAllowsVersion(t, key, m, v) == Ok(false))
  {
    if KeyAllows(t, key, m) == Ok(false) {
      assert versions[0] in Listing(versions, None);
      assert KeyAllowsVersion(t, key, m, versions[0]) == Ok(false);
    }
  }

  // ----- Version segments -----

  datatype Segment = Current | Numeric | Alias

  function Classify(segment: string): Segment {
    if segment == "current" then Current
    else if Numerals.IsNumeric(segment) then Numeric
    else Alias
  }

  datatype Resolution = Resolved(version: Version) | NotFound | Forbidden | Failed

  /** What a segment stands for on this map; "current" without a current version stands for nothing. */
  function Named(t: Tables, m: MapId, segment: string): Option<Version> {
    match Classify(segment)
    case Current => if m in t.maps && t.maps[m].current != "" then Some(t.maps[m].current) else None
    case Numeric => Some(segment)
    case Alias => if (m, segment) in t.aliases then Some(t.aliases[(m, segment)]) else None
  }

  /** "current" stands for the map's current version, if it has one, digits for themselves, and anything
      else for the target of the map's alias of that name. */
  ghost predicate StandsFor(t: Tables, m: MapId, segment: string, v: Version) {
    if segment == "current" then m in t.maps && t.maps[m].current == v && v != ""
    else if segment != "" && forall i | 0 <= i < |segment| :: '0' <= segment[i] <= '9' then v == segment
    else (m, segment) in t.aliases && t.aliases[(m, segment)] == v
  }

  lemma SegmentStandsFor(t: Tables, key: Option<KeyId>, m: MapId, segment: string)
    ensures forall v :: Named(t, m, segment) == Some(v) <==> StandsFor(t, m, segment, v)
    ensures forall v :: KeyAllowsVersion(t, key, m, v) == Ok(true) <==> VersionAdmitted(t, key, m, v)
  {
    assert Numerals.IsNumeric(segment) <==> segment != "" && forall i | 0 <= i < |segment| :: '0' <= segment[i] <= '9';
    hide Numerals.IsNumeric;
  }

  /** resolveVersionSegment: the one way into every version-scoped route. It yields the version the
      segment names, and only if the key's scope admits that version. */
  method ResolveVersionSegment(st: S.Store, req: Request, m: MapId, segment: string) returns (r: Resolution)
    requires C.Coherent(st.State())
    modifies st`cache
    ensures C.Coherent(st.State())
    ensures r == match Named(st.db, m, segment)
                 case None => NotFound
                 case Some(v) =>
                   match KeyAllowsVersion(st.db, req.key, m, v)
                   case Err(_) => Failed
                   case Ok(allowed) => if allowed then Resolved(v) else Forbidden
    ensures forall v :: r == Resolved(v) <==> StandsFor(st.db, m, segment, v) && VersionAdmitted(st.db, req.key, m, v)
    ensures r == NotFound <==> forall v :: !StandsFor(st.db, m, segment, v)
  {
    SegmentStandsFor(st.db, req.key, m, segment);
    hide C.Coherent, Apply, KeyAllowsVersion, StandsFor, VersionAdmitted;
    var version: Version;
    S.CoherentAnswers(st.State(), m, "", segment, 0);
    if segment == "current" {
      LookupIsSafe(st.State(), Op.GetCurrentVersion(m));
      var current := st.GetCurrentVersion(m);
      if current == None || current.value == "" { return NotFound; }
      version := current.value;
    } else if Numerals.IsNumeric(segment) {
      version := segment;
    } else {
      LookupIsSafe(st.State(), Op.GetAlias(m, segment));
      var target := st.GetMapVersionAlias(m, segment);
      if target == None { return NotFound; }
      version := target.value;
    }
    var allowed := ApiKeyMapVersionAllowed(st, req.key, m, version);
    if allowed.Err? { return Failed; }
    r := if allowed.value then Resolved(version) else Forbidden;
  }
}
