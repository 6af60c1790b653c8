/** Refresh-token rotation as a transition system: concurrent transactions over one table with row
    locks, logins beside them, and aborts and crashes anywhere. A token stands for its hash, and a
    generated token is one that was never generated before. */
module Refresh {
  import opened Wrappers

  type Token = nat
  type Tx = nat
  type Time = int

  datatype Row = Row(user: string, expiresAt: Time, revoked: bool)

  /** Where a rotation stands. What it writes becomes visible only when it commits. */
  datatype Phase =
    | Looking
    | Locked(user: string, expiresAt: Time)
    | Revoking(user: string)
    | Inserting(user: string, issued: Token, issuedExpiresAt: Time)

  datatype Rotation = Rotation(spent: Token, phase: Phase)

  datatype Redemption = Redemption(spent: Token, issued: Token)

  /** generated, logins and redeemed record what happened. */
  datatype State = State(
    now: Time, tokens: map<Token, Row>, locks: map<Token, Tx>, txs: map<Tx, Rotation>,
    generated: set<Token>, logins: set<Token>, redeemed: seq<Redemption>)

  datatype Step =
    | Wait(d: nat)
    | Login(user: string, token: Token, ttl: int)
    | Begin(tx: Tx, spent: Token)
    | SelectForUpdate(tx: Tx)
    | CheckExpiry(tx: Tx)
    | Generate(tx: Tx, token: Token, ttl: int)
    | Commit(tx: Tx)
    | Abort(tx: Tx)
    | Crash

  predicate Redeemable(s: State, token: Token) { token in s.tokens && !s.tokens[token].revoked }

  predicate Enabled(s: State, step: Step) {
    match step
    case Wait(d) => true
    case Login(_, token, _) => token !in s.generated
    case Begin(tx, spent) => tx !in s.txs
    // blocks while another transaction holds the row, then looks at the row as that one left it
    case SelectForUpdate(tx) =>
      tx in s.txs && s.txs[tx].phase.Looking? && s.txs[tx].spent !in s.locks && Redeemable(s, s.txs[tx].spent)
    case CheckExpiry(tx) => tx in s.txs && s.txs[tx].phase.Locked? && s.now <= s.txs[tx].phase.expiresAt
    case Generate(tx, token, _) => tx in s.txs && s.txs[tx].phase.Revoking? && token !in s.generated
    case Commit(tx) => tx in s.txs && s.txs[tx].phase.Inserting?
    case Abort(tx) => tx in s.txs
    case Crash => true
  }

  function MoveTo(s: State, tx: Tx, phase: Phase): State
    requires tx in s.txs
  {
    s.(txs := s.txs[tx := s.txs[tx].(phase := phase)])
  }

  /** A transaction ends and lets go of its row lock. */
  function End(s: State, tx: Tx): State {
    s.(txs := s.txs - {tx}, locks := map t | t in s.locks && s.locks[t] != tx :: s.locks[t])
  }

  function Revoked(tokens: map<Token, Row>, t: Token): map<Token, Row> {
    if t in tokens then tokens[t := tokens[t].(revoked := true)] else tokens
  }

  function CommitRotation(s: State, tx: Tx, spent: Token, user: string, issued: Token, expiresAt: Time): State {
    End(s, tx)
    .(tokens := Revoked(s.tokens, spent)[issued := Row(user, expiresAt, false)],
      redeemed := s.redeemed + [Redemption(spent, issued)])
  }

  function Apply(s: State, step: Step): State
    requires Enabled(s, step)
  {
    match step
    case Wait(d) => s.(now := s.now + d)
    case Login(user, token, ttl) =>
      s.(tokens := s.tokens[token := Row(user, s.now + ttl, false)], generated := s.generated + {token},
         logins := s.logins + {token})
    case Begin(tx, spent) => s.(txs := s.txs[tx := Rotation(spent, Looking)])
    case SelectForUpdate(tx) =>
      var spent := s.txs[tx].spent;
      MoveTo(s, tx, Locked(s.tokens[spent].user, s.tokens[spent].expiresAt)).(locks := s.locks[spent := tx])
    case CheckExpiry(tx) => MoveTo(s, tx, Revoking(s.txs[tx].phase.user))
    case Generate(tx, token, ttl) =>
      MoveTo(s, tx, Inserting(s.txs[tx].phase.user, token, s.now + ttl)).(generated := s.generated + {token})
    case Commit(tx) =>
      var r := s.txs[tx];
      CommitRotation(s, tx, r.spent, r.phase.user, r.phase.issued, r.phase.issuedExpiresAt)
    case Abort(tx) => End(s, tx)
    case Crash => s.(txs := map[], locks := map[])
  }

  predicate Init(s: State) {
    s.tokens == map[] && s.locks == map[] && s.txs == map[] && s.generated == {} && s.logins == {} && s.redeemed == []
  }

  // ----- The invariant -----

  ghost predicate Spent(redeemed: seq<Redemption>, t: Token) {
    exists r :: r in redeemed && r.spent == t
  }

  ghost predicate Issued(redeemed: seq<Redemption>, t: Token) {
    exists r :: r in redeemed && r.issued == t
  }

  /** A token is redeemed at most once and comes from at most one redemption. */
  ghost predicate Single(redeemed: seq<Redemption>) {
    forall i, j | 0 <= i < j < |redeemed| ::
      redeemed[i].spent != redeemed[j].spent && redeemed[i].issued != redeemed[j].issued
  }

  /** A token's successor is the same user's and no login's. */
  ghost predicate Successors(s: State) {
    forall r | r in s.redeemed ::
      && r.spent in s.tokens && r.issued in s.tokens && r.issued !in s.logins
      && s.tokens[r.spent].user == s.tokens[r.issued].user
  }

  /** Tokens are generated ones, from a login or a redemption, and revoked exactly if redeemed. */
  ghost predicate TokensOk(s: State) {
    && s.tokens.Keys <= s.generated && s.logins <= s.tokens.Keys
    && forall t | t in s.tokens ::
         && (s.tokens[t].revoked <==> Spent(s.redeemed, t))
         && (t in s.logins || Issued(s.redeemed, t))
  }

  /** What is redeemed came from a login or from an earlier redemption. */
  ghost predicate Grounded(s: State) {
    forall k | 0 <= k < |s.redeemed| :: s.redeemed[k].spent in s.logins || Issued(s.redeemed[..k], s.redeemed[k].spent)
  }

  /** A rotation past its select holds the lock of its row, which is still unrevoked and whose user it
      remembers; no two are about to insert the same token. */
  ghost predicate RotationsOk(s: State) {
    && (forall t | t in s.locks :: s.locks[t] in s.txs && s.txs[s.locks[t]].spent == t)
    && (forall tx | tx in s.txs && !s.txs[tx].phase.Looking? ::
          && s.txs[tx].spent in s.locks && s.locks[s.txs[tx].spent] == tx
          && Redeemable(s, s.txs[tx].spent) && s.tokens[s.txs[tx].spent].user == s.txs[tx].phase.user)
    && (forall tx | tx in s.txs && s.txs[tx].phase.Inserting? ::
          s.txs[tx].phase.issued in s.generated && s.txs[tx].phase.issued !in s.tokens)
    && (forall tx, tx' | tx in s.txs && tx' in s.txs && s.txs[tx].phase.Inserting? && s.txs[tx'].phase.Inserting?
                         && s.txs[tx].phase.issued == s.txs[tx'].phase.issued :: tx == tx')
  }

  ghost predicate HistoryOk(s: State) { Single(s.redeemed) && Successors(s) && TokensOk(s) && Grounded(s) }

  ghost predicate Inv(s: State) { HistoryOk(s) && RotationsOk(s) }

  lemma OneMoreRedemption(redeemed: seq<Redemption>, r: Redemption, t: Token)
    ensures Spent(redeemed + [r], t) <==> Spent(redeemed, t) || r.spent == t
    ensures Issued(redeemed + [r], t) <==> Issued(redeemed, t) || r.issued == t
  {
    assert forall x :: x in redeemed + [r] <==> x in redeemed || x == r;
    assert r in redeemed + [r];
  }

  lemma CommitKeepsTokens(s: State, tx: Tx)
    requires Inv(s) && Enabled(s, Commit(tx))
    ensures TokensOk(Apply(s, Commit(tx)))
  {
    hide Spent, Issued, Single, Successors, Grounded;
    var r := Redemption(s.txs[tx].spent, s.txs[tx].phase.issued);
    forall t {:trigger Spent(s.redeemed, t)} ensures Spent(s.redeemed + [r], t) <==> Spent(s.redeemed, t) || r.spent == t
             ensures Issued(s.redeemed + [r], t) <==> Issued(s.redeemed, t) || r.issued == t
    {
      OneMoreRedemption(s.redeemed, r, t);
    }
    NotYetSpent(s, r.issued);
  }

  lemma NotYetSpent(s: State, t: Token)
    requires HistoryOk(s) && t !in s.tokens
    ensures !Spent(s.redeemed, t)
  {
    hide Issued;
  }

  /** A rotation about to commit still has its token unspent, and its new one is new. */
  lemma AboutToCommit(s: State, tx: Tx)
    requires Inv(s) && Enabled(s, Commit(tx))
    ensures var spent, issued := s.txs[tx].spent, s.txs[tx].phase.issued;
            && spent in s.tokens && s.tokens[spent].user == s.txs[tx].phase.user && !Spent(s.redeemed, spent)
            && (spent in s.logins || Issued(s.redeemed, spent))
            && issued !in s.tokens && issued !in s.logins && spent != issued
  {
    hide Single, Successors, Grounded, Spent, Issued;
  }

  lemma CommitKeepsSingle(s: State, tx: Tx)
    requires Inv(s) && Enabled(s, Commit(tx))
    ensures Single(Apply(s, Commit(tx)).redeemed) && Successors(Apply(s, Commit(tx)))
  {
    hide RotationsOk, TokensOk, Grounded, Issued;
    AboutToCommit(s, tx);
    var spent, issued := s.txs[tx].spent, s.txs[tx].phase.issued;
    assert forall r | r in s.redeemed :: r.spent != spent && r.issued != issued;
    hide Spent;
    var redeemed := s.redeemed + [Redemption(spent, issued)];
    assert forall r :: r in redeemed <==> r in s.redeemed || r == Redemption(spent, issued);
    assert forall i | 0 <= i < |s.redeemed| :: s.redeemed[i] in s.redeemed;
  }

  lemma CommitKeepsGrounded(s: State, tx: Tx)
    requires Inv(s) && Enabled(s, Commit(tx))
    ensures Grounded(Apply(s, Commit(tx)))
  {
    hide Issued, Spent, Single, Successors, RotationsOk, TokensOk;
    AboutToCommit(s, tx);
    var n, redeemed := |s.redeemed|, s.redeemed + [Redemption(s.txs[tx].spent, s.txs[tx].phase.issued)];
    assert redeemed[..n] == s.redeemed;
    assert forall k | 0 <= k < n :: redeemed[..k] == s.redeemed[..k];
  }

  lemma CommitKeepsRotations(s: State, tx: Tx)
    requires Inv(s) && Enabled(s, Commit(tx))
    ensures RotationsOk(Apply(s, Commit(tx)))
  {
    hide Single, Successors, Grounded, TokensOk;
  }

  lemma CommitKeepsInv(s: State, tx: Tx)
    requires Inv(s) && Enabled(s, Commit(tx))
    ensures Inv(Apply(s, Commit(tx)))
  {
    CommitKeepsTokens(s, tx);
    CommitKeepsSingle(s, tx);
    CommitKeepsGrounded(s, tx);
    CommitKeepsRotations(s, tx);
    hide Single, Successors, Grounded, TokensOk, RotationsOk;
  }

  lemma LoginKeepsHistory(s: State, user: string, token: Token, ttl: int)
    requires HistoryOk(s) && token !in s.generated
    ensures HistoryOk(Apply(s, Login(user, token, ttl)))
  {
    NotYetSpent(s, token);
    hide Spent, Issued, Single;
  }

  lemma LoginKeepsInv(s: State, user: string, token: Token, ttl: int)
    requires Inv(s) && token !in s.generated
    ensures Inv(Apply(s, Login(user, token, ttl)))
  {
    hide HistoryOk;
    InGenerated(s);
    LoginKeepsHistory(s, user, token, ttl);
  }

  /** The history depends on the tokens, the logins and the redemptions, and on nothing else but what
      has been generated. */
  lemma SameHistory(s: State, s': State)
    requires HistoryOk(s) && s'.redeemed == s.redeemed && s'.tokens == s.tokens && s'.logins == s.logins
    requires s.generated <= s'.generated
    ensures HistoryOk(s')
  {
    hide Spent, Issued, Single;
  }

  lemma RotationStepKeepsInv(s: State, step: Step)
    requires Inv(s) && Enabled(s, step) && !step.Commit? && !step.Login?
    ensures Inv(Apply(s, step))
  {
    SameHistory(s, Apply(s, step));
    hide Single, Successors, Grounded, Spent, Issued, HistoryOk;
    assert s.tokens.Keys <= s.generated by { InGenerated(s); }
    RotationStepKeepsRotations(s, step);
  }

  lemma InGenerated(s: State)
    requires HistoryOk(s)
    ensures s.tokens.Keys <= s.generated
  {
    hide Single, Successors, Grounded, Spent, Issued;
  }

  lemma RotationStepKeepsRotations(s: State, step: Step)
    requires RotationsOk(s) && s.tokens.Keys <= s.generated && Enabled(s, step) && !step.Commit? && !step.Login?
    ensures RotationsOk(Apply(s, step))
  {
  }

  lemma StepKeepsInv(s: State, step: Step)
    requires Inv(s) && Enabled(s, step)
    ensures Inv(Apply(s, step))
  {
    hide Inv;
    match step
    case Commit(tx) => CommitKeepsInv(s, tx);
    case Login(user, token, ttl) => LoginKeepsInv(s, user, token, ttl);
    case _ => RotationStepKeepsInv(s, step);
  }

  lemma InitInv(s: State)
    requires Init(s)
    ensures Inv(s)
  {
  }

  // ----- Runs -----

  ghost predicate StepAt(states: seq<State>, steps: seq<Step>, i: nat)
    requires |states| == |steps| + 1 && i < |steps|
  {
    Enabled(states[i], steps[i]) && states[i + 1] == Apply(states[i], steps[i])
  }

  ghost predicate Run(states: seq<State>, steps: seq<Step>) {
    |states| == |steps| + 1 && Init(states[0]) && forall i | 0 <= i < |steps| :: StepAt(states, steps, i)
  }

  lemma {:induction false} RunKeepsInv(states: seq<State>, steps: seq<Step>, i: nat)
    requires Run(states, steps) && i < |states|
    ensures Inv(states[i])
  {
    hide Inv, Apply, Enabled;
    if i == 0 {
      InitInv(states[0]);
    } else {
      RunKeepsInv(states, steps, i - 1);
      assert StepAt(states, steps, i - 1);
      StepKeepsInv(states[i - 1], steps[i - 1]);
    }
  }

  /** Each refresh token is redeemed at most once, however many rotations of it run at the same time. */
  lemma RedeemedAtMostOnce(states: seq<State>, steps: seq<Step>, i: nat, j: nat, k: nat)
    requires Run(states, steps) && i < |states| && j < |states[i].redeemed| && k < |states[i].redeemed|
    requires states[i].redeemed[j].spent == states[i].redeemed[k].spent
    ensures j == k
  {
    hide Apply, Enabled, Successors, TokensOk, Grounded, RotationsOk;
    RunKeepsInv(states, steps, i);
  }

  // ----- The tokens of one login -----

  /** A sequence of tokens each redeemed for the next. */
  ghost predicate IsLine(s: State, p: seq<Token>) {
    && p != []
    && (|p| > 1 ==> IsLine(s, p[..|p| - 1]) && Redemption(p[|p| - 2], p[|p| - 1]) in s.redeemed)
  }

  lemma SameSpent(s: State, a: Redemption, b: Redemption)
    requires Single(s.redeemed) && a in s.redeemed && b in s.redeemed && (a.spent == b.spent || a.issued == b.issued)
    ensures a == b
  {
  }

  /** The tokens descending from one token form a single line. */
  lemma {:induction false} OneLine(s: State, p: seq<Token>, q: seq<Token>)
    requires Single(s.redeemed) && IsLine(s, p) && IsLine(s, q) && p[0] == q[0] && |p| <= |q|
    ensures p == q[..|p|]
  {
    var n := |p| - 1;
    if |p| < |q| {
      OneLine(s, p, q[..|q| - 1]);
    } else if n > 0 {
      OneLine(s, p[..n], q[..n]);
      assert p[..n][n - 1] == q[..n][n - 1];
      SameSpent(s, Redemption(p[n - 1], p[n]), Redemption(q[n - 1], q[n]));
      assert p == p[..n] + [p[n]] && q == q[..n] + [q[n]];
    }
  }

  lemma {:induction false} OneUser(s: State, p: seq<Token>)
    requires Successors(s) && IsLine(s, p) && p[0] in s.tokens
    ensures p[|p| - 1] in s.tokens && s.tokens[p[|p| - 1]].user == s.tokens[p[0]].user
  {
    if |p| > 1 {
      OneUser(s, p[..|p| - 1]);
    }
  }

  /** Every token of a line but the last is revoked. */
  lemma {:induction false} InnerIsRevoked(s: State, p: seq<Token>, i: nat)
    requires HistoryOk(s) && IsLine(s, p) && i < |p| - 1
    ensures p[i] in s.tokens && s.tokens[p[i]].revoked
  {
    hide Single, Grounded, Issued;
    if i == |p| - 2 {
      assert Spent(s.redeemed, p[i]);
    } else {
      InnerIsRevoked(s, p[..|p| - 1], i);
    }
  }

  /** In every run: two tokens that descend from the same login are on one line and the same user's,
      and if both are unrevoked they are the same token. */
  lemma OneSessionPerLogin(states: seq<State>, steps: seq<Step>, i: nat, p: seq<Token>, q: seq<Token>)
    requires Run(states, steps) && i < |states| && IsLine(states[i], p) && IsLine(states[i], q)
    requires p[0] == q[0] && p[0] in states[i].logins
    ensures p <= q || q <= p
    ensures var s := states[i];
            var a, b := p[|p| - 1], q[|q| - 1];
            && a in s.tokens && b in s.tokens && p[0] in s.tokens
            && s.tokens[a].user == s.tokens[b].user == s.tokens[p[0]].user
            && (!s.tokens[a].revoked && !s.tokens[b].revoked ==> a == b)
  {
    var s := states[i];
    RunKeepsInv(states, steps, i);
    assert p[0] in s.tokens;
    hide Apply, Enabled, Run, TokensOk, Grounded, Single, RotationsOk, Successors;
    OneUser(s, p);
    OneUser(s, q);
    if |p| <= |q| { OneLine(s, p, q); } else { OneLine(s, q, p); }
    if |p| < |q| { InnerIsRevoked(s, q, |p| - 1); }
    if |q| < |p| { InnerIsRevoked(s, p, |q| - 1); }
  }

  /** Lines of different logins never meet. */
  lemma {:induction false} LoginsStayApart(s: State, p: seq<Token>, q: seq<Token>)
    requires Single(s.redeemed) && Successors(s) && IsLine(s, p) && IsLine(s, q)
    requires p[0] in s.logins && q[0] in s.logins && p[|p| - 1] == q[|q| - 1]
    ensures p == q
  {
    var n, m := |p| - 1, |q| - 1;
    assert n > 0 ==> p[n] !in s.logins;
    assert m > 0 ==> q[m] !in s.logins;
    if n > 0 && m > 0 {
      SameSpent(s, Redemption(p[n - 1], p[n]), Redemption(q[m - 1], q[m]));
      LoginsStayApart(s, p[..n], q[..m]);
      assert p == p[..n] + [p[n]] && q == q[..m] + [q[m]];
    }
  }

  /** Every token is on the line of some login. */
  lemma LineOf(s: State, t: Token) returns (p: seq<Token>)
    requires HistoryOk(s) && t in s.tokens
    ensures IsLine(s, p) && p[0] in s.logins && p[|p| - 1] == t
  {
    hide Single, Successors, Grounded, Spent;
    if t in s.logins {
      p := [t];
    } else {
      var r :| r in s.redeemed && r.issued == t;
      var k :| 0 <= k < |s.redeemed| && s.redeemed[k] == r;
      p := LineUpTo(s, k);
    }
  }

  lemma LineUpTo(s: State, k: nat) returns (p: seq<Token>)
    requires Grounded(s) && k < |s.redeemed|
    ensures IsLine(s, p) && p[0] in s.logins && p[|p| - 1] == s.redeemed[k].issued
    decreases k
  {
    var front := [s.redeemed[k].spent];
    if front[0] !in s.logins {
      var r :| r in s.redeemed[..k] && r.issued == s.redeemed[k].spent;
      var j :| 0 <= j < k && s.redeemed[..k][j] == r;
      front := LineUpTo(s, j);
    }
    hide Grounded;
    p := front + [s.redeemed[k].issued];
    assert p[..|p| - 1] == front;
    assert s.redeemed[k] == Redemption(front[|front| - 1], s.redeemed[k].issued);
  }

  // ----- Expiry -----

  /** What a rotation past its select remembers of its row is what the row says. */
  ghost predicate RemembersExpiry(s: State) {
    forall tx | tx in s.txs && s.txs[tx].phase.Locked? ::
      s.txs[tx].spent in s.tokens && s.tokens[s.txs[tx].spent].expiresAt == s.txs[tx].phase.expiresAt
  }

  /** A token once there keeps its user and its expiry. */
  lemma TokensKeepExpiry(s: State, step: Step, t: Token)
    requires Inv(s) && Enabled(s, step) && t in s.tokens
    ensures var s' := Apply(s, step);
            t in s'.tokens && s'.tokens[t].expiresAt == s.tokens[t].expiresAt && s'.tokens[t].user == s.tokens[t].user
  {
    hide Spent, Issued, Single, Grounded, Successors;
    if step.Login? { InGenerated(s); }
  }

  lemma StepRemembersExpiry(s: State, step: Step)
    requires Inv(s) && Enabled(s, step) && RemembersExpiry(s)
    ensures RemembersExpiry(Apply(s, step))
  {
    hide Inv;
    var s' := Apply(s, step);
    forall tx | tx in s'.txs && s'.txs[tx].phase.Locked?
      ensures s'.txs[tx].spent in s'.tokens && s'.tokens[s'.txs[tx].spent].expiresAt == s'.txs[tx].phase.expiresAt
    {
      if tx in s.txs && s.txs[tx].phase.Locked? {
        TokensKeepExpiry(s, step, s.txs[tx].spent);
      }
    }
  }

  lemma {:induction false} RunRemembersExpiry(states: seq<State>, steps: seq<Step>, i: nat)
    requires Run(states, steps) && i < |states|
    ensures RemembersExpiry(states[i])
  {
    if i > 0 {
      hide Inv, Apply, Enabled, RemembersExpiry;
      RunRemembersExpiry(states, steps, i - 1);
      RunKeepsInv(states, steps, i - 1);
      assert StepAt(states, steps, i - 1);
      StepRemembersExpiry(states[i - 1], steps[i - 1]);
    }
  }

  predicate Checked(s: State, tx: Tx) {
    tx in s.txs && (s.txs[tx].phase.Revoking? || s.txs[tx].phase.Inserting?)
  }

  /** Only the check gets a rotation past the check. */
  lemma CheckedBefore(s: State, step: Step, tx: Tx)
    requires Enabled(s, step) && Checked(Apply(s, step), tx)
    ensures tx in s.txs && Apply(s, step).txs[tx].spent == s.txs[tx].spent
    ensures Checked(s, tx) || (step == CheckExpiry(tx) && s.txs[tx].phase.Locked? && s.now <= s.txs[tx].phase.expiresAt)
  {
  }

  /** At step k rotation tx compared its token's expiry with the clock, and has been the same rotation
      ever since. */
  ghost predicate PassedCheck(states: seq<State>, steps: seq<Step>, i: nat, tx: Tx, k: nat)
    requires |states| == |steps| + 1 && i < |states| && tx in states[i].txs
  {
    var spent := states[i].txs[tx].spent;
    && k < i && steps[k] == CheckExpiry(tx)
    && spent in states[k].tokens && states[k].now <= states[k].tokens[spent].expiresAt
    && forall l | k <= l <= i :: tx in states[l].txs && states[l].txs[tx].spent == spent
  }

  lemma {:induction false} CheckedAt(states: seq<State>, steps: seq<Step>, i: nat, tx: Tx) returns (k: nat)
    requires Run(states, steps) && i < |states| && Checked(states[i], tx)
    ensures PassedCheck(states, steps, i, tx, k)
  {
    hide Inv, Apply, Enabled;
    assert i > 0;
    assert StepAt(states, steps, i - 1);
    CheckedBefore(states[i - 1], steps[i - 1], tx);
    RunRemembersExpiry(states, steps, i - 1);
    if Checked(states[i - 1], tx) {
      k := CheckedAt(states, steps, i - 1, tx);
    } else {
      k := i - 1;
    }
  }

  /** No rotation commits, in any run, but one that found its token unexpired. */
  lemma CommitWasChecked(states: seq<State>, steps: seq<Step>, i: nat, tx: Tx) returns (k: nat)
    requires Run(states, steps) && i < |steps| && steps[i] == Commit(tx)
    ensures tx in states[i].txs && PassedCheck(states, steps, i, tx, k)
  {
    hide Apply, Init;
    assert StepAt(states, steps, i);
    k := CheckedAt(states, steps, i, tx);
  }

  /** The new token of a rotation about to commit was generated at step k, with its expiry. */
  lemma {:induction false} GeneratedAt(states: seq<State>, steps: seq<Step>, i: nat, tx: Tx) returns (k: nat, ttl: int)
    requires Run(states, steps) && i < |states| && tx in states[i].txs && states[i].txs[tx].phase.Inserting?
    ensures k < i && steps[k] == Generate(tx, states[i].txs[tx].phase.issued, ttl)
    ensures states[i].txs[tx].phase.issuedExpiresAt == states[k].now + ttl
  {
    assert i > 0;
    assert StepAt(states, steps, i - 1);
    var s, step := states[i - 1], steps[i - 1];
    if step.Generate? && step.tx == tx {
      k, ttl := i - 1, step.ttl;
    } else {
      SameInserting(s, step, tx);
      hide Apply, Enabled, Init;
      k, ttl := GeneratedAt(states, steps, i - 1, tx);
    }
  }

  lemma SameInserting(s: State, step: Step, tx: Tx)
    requires Enabled(s, step) && !(step.Generate? && step.tx == tx)
    requires tx in Apply(s, step).txs && Apply(s, step).txs[tx].phase.Inserting?
    ensures tx in s.txs && s.txs[tx].phase == Apply(s, step).txs[tx].phase
  {
  }

  /** Step k made the token: a login, or the generation in a rotation; it expires its ttl after that. */
  ghost predicate LivesFrom(states: seq<State>, steps: seq<Step>, i: nat, t: Token, k: nat)
    requires |states| == |steps| + 1 && i < |states| && t in states[i].tokens
  {
    && k < i
    && match steps[k]
       case Login(user, token, ttl) =>
         token == t && states[i].tokens[t].expiresAt == states[k].now + ttl && states[i].tokens[t].user == user
       case Generate(_, token, ttl) => token == t && states[i].tokens[t].expiresAt == states[k].now + ttl
       case _ => false
  }

  lemma NewToken(s: State, step: Step, t: Token)
    requires Enabled(s, step) && t in Apply(s, step).tokens && t !in s.tokens
    ensures || (step.Login? && step.token == t && Apply(s, step).tokens[t] == Row(step.user, s.now + step.ttl, false))
            || (step.Commit? && s.txs[step.tx].phase.issued == t
                && Apply(s, step).tokens[t] == Row(s.txs[step.tx].phase.user, s.txs[step.tx].phase.issuedExpiresAt, false))
  {
  }

  /** Every token of any run expires its ttl after the login or the rotation that generated it, and a
      login's token is the user's who logged in. */
  lemma {:induction false} TokenLivesItsTtl(states: seq<State>, steps: seq<Step>, i: nat, t: Token) returns (k: nat)
    requires Run(states, steps) && i < |states| && t in states[i].tokens
    ensures LivesFrom(states, steps, i, t, k)
  {
    hide Inv, Apply, Enabled;
    assert i > 0;
    assert StepAt(states, steps, i - 1);
    var s, step := states[i - 1], steps[i - 1];
    if t in s.tokens {
      k := TokenLivesItsTtl(states, steps, i - 1, t);
      RunKeepsInv(states, steps, i - 1);
      TokensKeepExpiry(s, step, t);
    } else {
      NewToken(s, step, t);
      if step.Login? {
        k := i - 1;
      } else {
        CommitIsInserting(s, step.tx);
        var ttl;
        k, ttl := GeneratedAt(states, steps, i - 1, step.tx);
      }
    }
  }

  lemma CommitIsInserting(s: State, tx: Tx)
    requires Enabled(s, Commit(tx))
    ensures tx in s.txs && s.txs[tx].phase.Inserting?
  {
  }

  /** Undisturbed, RotateRefreshToken on a token that nobody holds succeeds if and only if the token
      exists, is unrevoked and has not expired, the instant of expiry included; then it is revoked and
      the new one is the same user's, for its ttl. */
  lemma RotationSucceedsIff(s: State, tx: Tx, t: Token, issued: Token, ttl: int)
    requires tx !in s.txs && t !in s.locks && issued !in s.generated && issued != t
    ensures var begun := Apply(s, Begin(tx, t));
            && (Enabled(begun, SelectForUpdate(tx)) && Enabled(Apply(begun, SelectForUpdate(tx)), CheckExpiry(tx))
                <==> t in s.tokens && !s.tokens[t].revoked && s.now <= s.tokens[t].expiresAt)
            && (t in s.tokens && !s.tokens[t].revoked && s.now <= s.tokens[t].expiresAt ==>
                  var checked := Apply(Apply(begun, SelectForUpdate(tx)), CheckExpiry(tx));
                  && Enabled(checked, Generate(tx, issued, ttl))
                  && var inserted := Apply(checked, Generate(tx, issued, ttl));
                     && Enabled(inserted, Commit(tx))
                     && var s' := Apply(inserted, Commit(tx));
                        && s'.tokens == s.tokens[t := Row(s.tokens[t].user, s.tokens[t].expiresAt, true)]
                                                [issued := Row(s.tokens[t].user, s.now + ttl, false)]
                        && s'.redeemed == s.redeemed + [Redemption(t, issued)]
                        && s'.txs == s.txs && t !in s'.locks)
  {
    var rest := s.txs[tx := Rotation(t, Looking)] - {tx};
    assert rest == s.txs;
  }

  /** A rotation can fail at any point, and then it has changed no token and no longer holds a row. */
  lemma FailedRotationLeavesNoTrace(s: State, tx: Tx)
    requires RotationsOk(s) && tx in s.txs
    ensures Enabled(s, Abort(tx))
    ensures var s' := Apply(s, Abort(tx));
            && s'.tokens == s.tokens && s'.redeemed == s.redeemed && tx !in s'.txs
            && (forall t | t in s'.locks :: t in s.locks && s'.locks[t] == s.locks[t] && s'.locks[t] != tx)
            && (!s.txs[tx].phase.Looking? ==> s.txs[tx].spent in s.locks && s.txs[tx].spent !in s'.locks)
  {
  }
}
