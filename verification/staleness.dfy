/** Cached lookups of one kind under full concurrency: each lookup that misses reads the database and
    fills the cache some time later, while other calls write, invalidate and clear. */
module Staleness {
  import opened TtlCache
  import opened Wrappers

  /** The database's answers; a key without one is not found, and not cached. */
  type Answers<K(==), V(==)> = map<K, V>

  /** The answers from a point in time on. */
  datatype Era<K(==), V(==)> = Era(since: Time, answers: Answers<K, V>)

  /** An answer read at readAt. */
  datatype Read<K(==), V(==)> = Read(key: K, value: V, readAt: Time)

  datatype Fill<K(==), V(==)> = Fill(read: Read<K, V>, setAt: Time)

  /** history and fills record what happened; nothing depends on them. */
  datatype State<K(==), V(==)> = State(
    now: Time, cache: map<K, Entry<V>>, pending: set<Read<K, V>>,
    history: seq<Era<K, V>>, fills: set<Fill<K, V>>)

  datatype Step<K(==), V(==)> =
    | Wait(d: nat)
    | Write(answers: Answers<K, V>)
    | ReadDb(key: K)
    | SetCache(read: Read<K, V>)
    | Invalidate(key: K)
    | Clear
    | Restart

  function Answer<K(==,!new), V(==,!new)>(s: State<K, V>): Answers<K, V>
    requires s.history != []
  {
    s.history[|s.history| - 1].answers
  }

  predicate Enabled<K(==,!new), V(==,!new)>(s: State<K, V>, step: Step<K, V>) {
    && s.history != []
    && (step.ReadDb? ==> step.key in Answer(s))
    && (step.SetCache? ==> step.read in s.pending)
  }

  function Apply<K(==,!new), V(==,!new)>(ttl: nat, s: State<K, V>, step: Step<K, V>): State<K, V>
    requires Enabled(s, step)
  {
    match step
    case Wait(d) => s.(now := s.now + d)
    case Write(answers) => s.(history := s.history + [Era(s.now, answers)])
    case ReadDb(key) => s.(pending := s.pending + {Read(key, Answer(s)[key], s.now)})
    case SetCache(r) =>
      s.(cache := After(ttl, s.cache, Put(r.key, r.value, s.now)), fills := s.fills + {Fill(r, s.now)})
    case Invalidate(key) => s.(cache := After(ttl, s.cache, Drop(key)))
    case Clear => s.(cache := After(ttl, s.cache, DropAll))
    case Restart => s.(cache := map[], pending := {})
  }

  ghost predicate Init<K(!new), V(!new)>(s: State<K, V>) {
    && s.cache == map[] && s.pending == {} && s.fills == {}
    && |s.history| == 1 && s.history[0].since <= s.now
  }

  /** v was the database's answer for key at some moment of time t. */
  ghost predicate WasAnswerIn<K(!new), V(!new)>(history: seq<Era<K, V>>, i: nat, key: K, v: V, t: Time) {
    && i < |history| && history[i].since <= t
    && (i + 1 < |history| ==> t <= history[i + 1].since)
    && key in history[i].answers && history[i].answers[key] == v
  }

  ghost predicate WasAnswer<K(!new), V(!new)>(history: seq<Era<K, V>>, key: K, v: V, t: Time) {
    exists i: nat :: WasAnswerIn(history, i, key, v, t)
  }

  ghost predicate ReadOk<K(!new), V(!new)>(s: State<K, V>, r: Read<K, V>) {
    r.readAt <= s.now && WasAnswer(s.history, r.key, r.value, r.readAt)
  }

  ghost predicate FilledBy<K(!new), V(!new)>(ttl: nat, s: State<K, V>, key: K, f: Fill<K, V>) {
    && f in s.fills && f.read.key == key && key in s.cache
    && s.cache[key] == Entry(f.read.value, f.setAt + ttl)
  }

  ghost predicate Inv<K(!new), V(!new)>(ttl: nat, s: State<K, V>) {
    && s.history != [] && s.history[|s.history| - 1].since <= s.now
    && (forall r | r in s.pending :: ReadOk(s, r))
    && (forall f | f in s.fills :: ReadOk(s, f.read) && f.read.readAt <= f.setAt <= s.now)
    && (forall key | key in s.cache :: exists f :: FilledBy(ttl, s, key, f))
  }

  /** A later write does not undo what was the answer before. */
  lemma WriteKeepsAnswers<K(!new), V(!new)>(s: State<K, V>, answers: Answers<K, V>, r: Read<K, V>)
    requires s.history != [] && ReadOk(s, r)
    ensures ReadOk(s.(history := s.history + [Era(s.now, answers)]), r)
  {
    var i: nat :| WasAnswerIn(s.history, i, r.key, r.value, r.readAt);
    assert WasAnswerIn(s.history + [Era(s.now, answers)], i, r.key, r.value, r.readAt);
  }

  lemma StepKeepsInv<K(!new), V(!new)>(ttl: nat, s: State<K, V>, step: Step<K, V>)
    requires Inv(ttl, s) && Enabled(s, step)
    ensures Inv(ttl, Apply(ttl, s, step))
  {
    var s' := Apply(ttl, s, step);
    match step
    case Write(answers) =>
      forall r | ReadOk(s, r) ensures ReadOk(s', r) { WriteKeepsAnswers(s, answers, r); }
      CacheKept(ttl, s, s');
    case ReadDb(key) =>
      assert WasAnswerIn(s.history, |s.history| - 1, key, Answer(s)[key], s.now);
      CacheKept(ttl, s, s');
    case SetCache(r) =>
      assert FilledBy(ttl, s', r.key, Fill(r, s.now));
      CacheKept(ttl, s, s');
    case _ => CacheKept(ttl, s, s');
  }

  /** An entry that a step leaves alone keeps its fill. */
  lemma CacheKept<K(!new), V(!new)>(ttl: nat, s: State<K, V>, s': State<K, V>)
    requires Inv(ttl, s) && s.fills <= s'.fills
    ensures forall key | key in s.cache && key in s'.cache && s'.cache[key] == s.cache[key] :: exists f :: FilledBy(ttl, s', key, f)
  {
    forall key | key in s.cache && key in s'.cache && s'.cache[key] == s.cache[key]
      ensures exists f :: FilledBy(ttl, s', key, f)
    {
      var f :| FilledBy(ttl, s, key, f);
      assert FilledBy(ttl, s', key, f);
    }
  }

  ghost predicate StepAt<K(!new), V(!new)>(ttl: nat, states: seq<State<K, V>>, steps: seq<Step<K, V>>, i: nat)
    requires |states| == |steps| + 1 && i < |steps|
  {
    Enabled(states[i], steps[i]) && states[i + 1] == Apply(ttl, states[i], steps[i])
  }

  ghost predicate Run<K(!new), V(!new)>(ttl: nat, states: seq<State<K, V>>, steps: seq<Step<K, V>>) {
    && |states| == |steps| + 1 && Init(states[0])
    && forall i | 0 <= i < |steps| :: StepAt(ttl, states, steps, i)
  }

  lemma {:induction false} RunKeepsInv<K(!new), V(!new)>(ttl: nat, states: seq<State<K, V>>, steps: seq<Step<K, V>>, i: nat)
    requires Run(ttl, states, steps) && i < |states|
    ensures Inv(ttl, states[i])
  {
    if i > 0 {
      RunKeepsInv(ttl, states, steps, i - 1);
      assert StepAt(ttl, states, steps, i - 1);
      StepKeepsInv(ttl, states[i - 1], steps[i - 1]);
    }
  }

  /** The staleness bound: a value returned at time t was the database's answer at some instant no
      earlier than t minus the ttl minus that fill's delay from read to set. */
  lemma HitsAreBounded<K(!new), V(!new)>(ttl: nat, states: seq<State<K, V>>, steps: seq<Step<K, V>>, i: nat, key: K, v: V)
    returns (f: Fill<K, V>)
    requires Run(ttl, states, steps) && i < |states|
    requires Lookup(states[i].cache, key, states[i].now) == Some(v)
    ensures f in states[i].fills && f.read.key == key && f.read.value == v
    ensures WasAnswer(states[i].history, key, v, f.read.readAt)
    ensures f.read.readAt >= states[i].now - ttl - (f.setAt - f.read.readAt)
    ensures f.read.readAt <= f.setAt <= states[i].now
  {
    RunKeepsInv(ttl, states, steps, i);
    f :| FilledBy(ttl, states[i], key, f);
  }

  /** The bound is attained, invalidation or not: with a fill that sets its answer d after reading it, a
      lookup can still return, d + ttl after the fact, a value that stopped being the answer right
      after it was read and whose entry was invalidated then. */
  lemma BoundIsAttained<K(!new), V(!new)>(ttl: nat, d: nat, key: K, was: V, becomes: V)
    returns (states: seq<State<K, V>>, steps: seq<Step<K, V>>)
    requires was != becomes
    ensures Run(ttl, states, steps)
    ensures var s := states[|states| - 1];
            && Lookup(s.cache, key, s.now) == Some(was)
            && s.now == d + ttl && s.history != [] && Answer(s) == map[key := becomes]
            && forall t | t > 0 :: !WasAnswer(s.history, key, was, t)
  {
    var db, db' := map[key := was], map[key := becomes];
    var r := Read(key, was, 0);
    var h := [Era(0, db)];
    var h' := h + [Era(0, db')];
    var e := map[key := Entry(was, d + ttl)];
    states := [
      State(0, map[], {}, h, {}),
      State(0, map[], {r}, h, {}),
      State(0, map[], {r}, h', {}),
      State(0, map[], {r}, h', {}),
      State(d, map[], {r}, h', {}),
      State(d, e, {r}, h', {Fill(r, d)}),
      State(d + ttl, e, {r}, h', {Fill(r, d)})
    ];
    steps := [ReadDb(key), Write(db'), Invalidate(key), Wait(d), SetCache(r), Wait(ttl)];
    var empty: map<K, Entry<V>> := map[];
    assert empty - {key} == empty && empty[key := Entry(was, d + ttl)] == e;
    assert StepAt(ttl, states, steps, 0) && StepAt(ttl, states, steps, 1) && StepAt(ttl, states, steps, 2);
    assert StepAt(ttl, states, steps, 3) && StepAt(ttl, states, steps, 4) && StepAt(ttl, states, steps, 5);
  }

  // ----- What invalidation does do -----

  predicate Touches<K(==,!new), V(==,!new)>(step: Step<K, V>, key: K) {
    match step
    case SetCache(r) => r.key == key
    case Invalidate(k) => k == key
    case Clear => true
    case Restart => true
    case _ => false
  }

  /** Step k filled the entry, and nothing touched its key since. */
  ghost predicate FilledAt<K(!new), V(!new)>(ttl: nat, states: seq<State<K, V>>, steps: seq<Step<K, V>>, i: nat, key: K, e: Entry<V>, k: nat)
    requires |states| == |steps| + 1 && i <= |steps|
  {
    && k < i && steps[k].SetCache? && steps[k].read.key == key
    && e == Entry(steps[k].read.value, states[k].now + ttl)
    && forall l | k < l < i :: !Touches(steps[l], key)
  }

  ghost predicate Filled<K(!new), V(!new)>(ttl: nat, states: seq<State<K, V>>, steps: seq<Step<K, V>>, i: nat, key: K, e: Entry<V>)
    requires |states| == |steps| + 1 && i <= |steps|
  {
    exists k: nat :: FilledAt(ttl, states, steps, i, key, e, k)
  }

  lemma StepOnEntry<K(!new), V(!new)>(ttl: nat, s: State<K, V>, step: Step<K, V>, key: K)
    requires Enabled(s, step)
    ensures var s' := Apply(ttl, s, step);
            && (!Touches(step, key) ==> (key in s'.cache <==> key in s.cache) && (key in s.cache ==> s'.cache[key] == s.cache[key]))
            && (Touches(step, key) && !step.SetCache? ==> key !in s'.cache)
            && (Touches(step, key) && step.SetCache? ==> key in s'.cache && s'.cache[key] == Entry(step.read.value, s.now + ttl))
  {
  }

  lemma OneMoreStep<K(!new), V(!new)>(ttl: nat, states: seq<State<K, V>>, steps: seq<Step<K, V>>, i: nat, key: K, e: Entry<V>)
    requires |states| == |steps| + 1 && i < |steps|
    ensures Filled(ttl, states, steps, i + 1, key, e) <==>
              if Touches(steps[i], key) then steps[i].SetCache? && e == Entry(steps[i].read.value, states[i].now + ttl)
              else Filled(ttl, states, steps, i, key, e)
  {
    hide Touches;
    var n := i + 1;
    if Touches(steps[i], key) {
      assert steps[i].SetCache? && e == Entry(steps[i].read.value, states[i].now + ttl) ==>
               steps[i].read.key == key && FilledAt(ttl, states, steps, n, key, e, i) by { if steps[i].SetCache? { SetTouchesItsKey(steps[i], key); } }
      assert forall k: nat | FilledAt(ttl, states, steps, n, key, e, k) :: k == i;
    } else {
      if steps[i].SetCache? { SetTouchesItsKey(steps[i], key); }
      assert forall k: nat | FilledAt(ttl, states, steps, n, key, e, k) :: FilledAt(ttl, states, steps, i, key, e, k);
      assert forall k: nat | FilledAt(ttl, states, steps, i, key, e, k) :: FilledAt(ttl, states, steps, n, key, e, k);
    }
  }

  lemma SetTouchesItsKey<K(!new), V(!new)>(step: Step<K, V>, key: K)
    requires step.SetCache?
    ensures Touches(step, key) <==> step.read.key == key
  {
  }

  /** In every run an entry is there exactly if some fill put it there and its key has not been
      invalidated, cleared or filled again since. */
  lemma {:induction false} EntryIffFilled<K(!new), V(!new)>(ttl: nat, states: seq<State<K, V>>, steps: seq<Step<K, V>>, i: nat, key: K, e: Entry<V>)
    requires Run(ttl, states, steps) && i < |states|
    ensures key in states[i].cache && states[i].cache[key] == e <==> Filled(ttl, states, steps, i, key, e)
  {
    hide Touches, Apply;
    if i > 0 {
      EntryIffFilled(ttl, states, steps, i - 1, key, e);
      OneMoreStep(ttl, states, steps, i - 1, key, e);
      hide Filled;
      assert StepAt(ttl, states, steps, i - 1);
      StepOnEntry(ttl, states[i - 1], steps[i - 1], key);
    }
  }
}
