/**
 Refresh tokens and their rotation in the sense of section 5.2.2.3 of RFC 6819: each login opens a
 family, each refresh replaces the family's active token, and presenting any other token of the family
 revokes them all. A refresh is one step here; TokenRaces takes its read and its writes apart.
 */
module TokenFamilies {
  import opened Wrappers

  datatype Status = Active | Rotated | Revoked

  /** A token is named by its position in the table; hashes are taken to be injective. */
  datatype Token = Token(user: nat, family: nat, status: Status, expiresAt: nat, replacedBy: Option<nat>)

  datatype Outcome = Issued(id: nat) | UnknownToken | ReuseDetected | SessionExpired | AccountInactive

  type Tokens = seq<Token>

  function RevokeOne(token: Token): (t: Token)
    ensures t.status == Revoked
  {
    token.(status := Revoked)
  }

  /** UPDATE refresh_tokens SET status = 'REVOKED' WHERE family = f AND status <> 'REVOKED'. */
  function RevokeFamily(tokens: Tokens, family: nat): (tokens': Tokens)
    ensures |tokens'| == |tokens|
  {
    seq(|tokens|, i requires 0 <= i < |tokens| => if tokens[i].family == family then RevokeOne(tokens[i]) else tokens[i])
  }

  /** A login: a token of a family not seen before. */
  function Issue(tokens: Tokens, user: nat, family: nat, expiresAt: nat): Tokens {
    tokens + [Token(user, family, Active, expiresAt, None)]
  }

  /** The two writes that end a refresh: they look at nothing but the token that was read. */
  function Rotate(tokens: Tokens, id: nat, ttl: nat, now: nat): Tokens
    requires id < |tokens|
  {
    var token := tokens[id];
    tokens[id := token.(status := Rotated, replacedBy := Some(|tokens|))] + [Token(token.user, token.family, Active, now + ttl, None)]
  }

  /** A refresh with the token `id`; `accountActive` says whether user and enterprise are. */
  function Refresh(tokens: Tokens, id: nat, now: nat, ttl: nat, accountActive: bool): (Tokens, Outcome) {
    if id >= |tokens| then (tokens, UnknownToken)
    else
      var token := tokens[id];
      if token.status != Active then (RevokeFamily(tokens, token.family), ReuseDetected)
      else if token.expiresAt < now then (tokens[id := RevokeOne(token)], SessionExpired)
      else if !accountActive then (RevokeFamily(tokens, token.family), AccountInactive)
      else (Rotate(tokens, id, ttl, now), Issued(|tokens|))
  }

  /** A logout is silent on a token that is unknown or somebody else's. */
  function Logout(tokens: Tokens, id: nat, user: nat): Tokens {
    if id >= |tokens| || tokens[id].user != user then tokens else RevokeFamily(tokens, tokens[id].family)
  }

  /** The revocation of everything a set of users holds, on suspension or a password reset. */
  function RevokeUsers(tokens: Tokens, users: set<nat>): (tokens': Tokens)
    ensures |tokens'| == |tokens|
  {
    seq(|tokens|, i requires 0 <= i < |tokens| => if tokens[i].user in users then RevokeOne(tokens[i]) else tokens[i])
  }

  /** Each answer to a refresh has its case, and says what has happened to the table. */
  lemma RefreshAnswers(tokens: Tokens, id: nat, now: nat, ttl: nat, accountActive: bool)
    ensures var (tokens', outcome) := Refresh(tokens, id, now, ttl, accountActive);
      if id >= |tokens| then outcome == UnknownToken && tokens' == tokens
      else
        var token := tokens[id];
        && (token.status in {Rotated, Revoked} ==> outcome == ReuseDetected)
        && (token.status == Active && token.expiresAt < now ==>
              outcome == SessionExpired && |tokens'| == |tokens| && tokens'[id] == token.(status := Revoked)
              && forall i | 0 <= i < |tokens| && i != id :: tokens'[i] == tokens[i])
        && (token.status == Active && now <= token.expiresAt && !accountActive ==> outcome == AccountInactive)
        && (token.status == Active && now <= token.expiresAt && accountActive ==>
              outcome == Issued(|tokens|) && |tokens'| == |tokens| + 1
              && tokens'[|tokens|] == Token(token.user, token.family, Active, now + ttl, None)
              && tokens'[id] == Token(token.user, token.family, Rotated, token.expiresAt, Some(|tokens|))
              && forall i | 0 <= i < |tokens| && i != id :: tokens'[i] == tokens[i])
        && (outcome in {ReuseDetected, AccountInactive} ==>
              |tokens'| == |tokens| && forall i | 0 <= i < |tokens| ::
                tokens'[i] == if tokens[i].family == token.family then tokens[i].(status := Revoked) else tokens[i])
  {
  }

  /** A logout revokes its family and no other token; with an unknown or foreign token it does nothing. */
  lemma LogoutMeans(tokens: Tokens, id: nat, user: nat)
    ensures var tokens' := Logout(tokens, id, user);
      if id < |tokens| && tokens[id].user == user then
        |tokens'| == |tokens| && forall i | 0 <= i < |tokens| ::
          tokens'[i] == if tokens[i].family == tokens[id].family then tokens[i].(status := Revoked) else tokens[i]
      else tokens' == tokens
  {
  }

  /** A suspension revokes all that its users hold, and nothing else; a login adds one active token. */
  lemma OthersMean(tokens: Tokens, users: set<nat>, user: nat, family: nat, expiresAt: nat)
    ensures |RevokeUsers(tokens, users)| == |tokens| && forall i | 0 <= i < |tokens| ::
      RevokeUsers(tokens, users)[i] == if tokens[i].user in users then tokens[i].(status := Revoked) else tokens[i]
    ensures Issue(tokens, user, family, expiresAt) == tokens + [Token(user, family, Active, expiresAt, None)]
  {
  }

  datatype Action =
    | Login(user: nat, family: nat, expiresAt: nat)
    | Present(id: nat, now: nat, ttl: nat, accountActive: bool)
    | SignOut(id: nat, user: nat)
    | Suspend(users: set<nat>)

  predicate Enabled(tokens: Tokens, a: Action) {
    a.Login? ==> forall i | 0 <= i < |tokens| :: tokens[i].family != a.family
  }

  function Step(tokens: Tokens, a: Action): Tokens
    requires Enabled(tokens, a)
  {
    match a
    case Login(user, family, expiresAt) => Issue(tokens, user, family, expiresAt)
    case Present(id, now, ttl, accountActive) => Refresh(tokens, id, now, ttl, accountActive).0
    case SignOut(id, user) => Logout(tokens, id, user)
    case Suspend(users) => RevokeUsers(tokens, users)
  }

  ghost predicate Next(tokens: Tokens, tokens': Tokens) {
    exists a :: Enabled(tokens, a) && Step(tokens, a) == tokens'
  }

  ghost predicate IsRun(run: seq<Tokens>) {
    run != [] && run[0] == [] && forall i | 0 <= i < |run| - 1 :: Next(run[i], run[i + 1])
  }

  // ---- The chain ----

  ghost predicate SameFamily(tokens: Tokens, i: nat, j: nat) {
    i < |tokens| && j < |tokens| && tokens[i].family == tokens[j].family
  }

  /** Of the tokens issued in a family, `j` is the first one after `i`. */
  ghost predicate NextInFamily(tokens: Tokens, i: nat, j: nat) {
    i < j && SameFamily(tokens, i, j) && forall k | i < k < j :: !SameFamily(tokens, i, k)
  }

  /**
   The links of a family are one chain in the order of issue: each token but the last points to the
   one issued next, the last points nowhere, and only it may be active. One user owns the family.
   */
  ghost predicate ChainOk(tokens: Tokens) {
    && (forall i: nat, j: nat | i < |tokens| && tokens[i].replacedBy == Some(j) :: NextInFamily(tokens, i, j))
    && (forall i: nat, j: nat | i < j && SameFamily(tokens, i, j) :: tokens[i].replacedBy.Some? && tokens[i].status != Active)
    && (forall i: nat, j: nat | SameFamily(tokens, i, j) :: tokens[i].user == tokens[j].user)
  }

  /** Changing statuses, never to active, keeps the chain. */
  lemma StatusesKeepChain(tokens: Tokens, tokens': Tokens)
    requires ChainOk(tokens) && |tokens'| == |tokens|
    requires forall i | 0 <= i < |tokens| ::
      tokens'[i] == tokens[i] || tokens'[i] == RevokeOne(tokens[i])
    ensures ChainOk(tokens')
  {
    assert forall i: nat, j: nat :: SameFamily(tokens', i, j) <==> SameFamily(tokens, i, j);
    forall i: nat, j: nat | i < |tokens'| && tokens'[i].replacedBy == Some(j)
      ensures NextInFamily(tokens', i, j)
    {
      assert NextInFamily(tokens, i, j);
    }
  }

  lemma LoginKeepsChain(tokens: Tokens, user: nat, family: nat, expiresAt: nat)
    requires ChainOk(tokens) && Enabled(tokens, Login(user, family, expiresAt))
    ensures ChainOk(Issue(tokens, user, family, expiresAt))
  {
    var tokens' := Issue(tokens, user, family, expiresAt);
    assert forall i: nat, j: nat | SameFamily(tokens', i, j) :: i == j == |tokens| || SameFamily(tokens, i, j);
    assert forall i: nat, j: nat | SameFamily(tokens, i, j) :: SameFamily(tokens', i, j);
    forall i: nat, j: nat | i < |tokens'| && tokens'[i].replacedBy == Some(j)
      ensures NextInFamily(tokens', i, j)
    {
      assert NextInFamily(tokens, i, j);
    }
  }

  lemma RotationKeepsChain(tokens: Tokens, id: nat, ttl: nat, now: nat)
    requires ChainOk(tokens) && id < |tokens| && tokens[id].status == Active
    ensures ChainOk(Rotate(tokens, id, ttl, now))
  {
    var tokens', n := Rotate(tokens, id, ttl, now), |tokens|;
    assert forall i: nat, j: nat | i < n && j < n :: SameFamily(tokens', i, j) <==> SameFamily(tokens, i, j);
    // the active token is the last of its family
    assert forall k: nat | id < k < n :: !SameFamily(tokens, id, k);
    forall i: nat, j: nat | i < |tokens'| && tokens'[i].replacedBy == Some(j)
      ensures NextInFamily(tokens', i, j)
    {
      if i != id {
        assert NextInFamily(tokens, i, j);
      }
    }
    forall i: nat, j: nat | i < j && SameFamily(tokens', i, j)
      ensures tokens'[i].replacedBy.Some? && tokens'[i].status != Active
    {
      if j == n && i != id {
        assert SameFamily(tokens, i, id) && SameFamily(tokens, id, i);
      }
    }
    forall i: nat, j: nat | SameFamily(tokens', i, j)
      ensures tokens'[i].user == tokens'[j].user
    {
      assert SameFamily(tokens, if i == n then id else i, if j == n then id else j);
    }
  }

  lemma StepKeepsChain(tokens: Tokens, a: Action)
    requires ChainOk(tokens) && Enabled(tokens, a)
    ensures ChainOk(Step(tokens, a))
  {
    match a
    case Login(user, family, expiresAt) => LoginKeepsChain(tokens, user, family, expiresAt);
    case Present(id, now, ttl, accountActive) =>
      if Refresh(tokens, id, now, ttl, accountActive).1.Issued? {
        RotationKeepsChain(tokens, id, ttl, now);
      } else {
        StatusesKeepChain(tokens, Step(tokens, a));
      }
    case _ => StatusesKeepChain(tokens, Step(tokens, a));
  }

  lemma {:induction false} RunKeepsChain(run: seq<Tokens>, i: nat)
    requires IsRun(run) && i < |run|
    ensures ChainOk(run[i])
  {
    if i == 0 {
    } else {
      RunKeepsChain(run, i - 1);
      assert Next(run[i - 1], run[i - 1 + 1]);
      var a :| Enabled(run[i - 1], a) && Step(run[i - 1], a) == run[i];
      StepKeepsChain(run[i - 1], a);
    }
  }

  // ---- What every run guarantees ----

  /** A family has one active token at most, and it is the last one issued in it. */
  lemma OneActivePerFamily(run: seq<Tokens>, i: nat, j: nat, k: nat)
    requires IsRun(run) && i < |run| && SameFamily(run[i], j, k) && run[i][j].status == Active
    ensures k <= j && (run[i][k].status == Active ==> k == j)
  {
    RunKeepsChain(run, i);
    assert SameFamily(run[i], k, j);
  }

  lemma NextIsInjective(tokens: Tokens, i: nat, j: nat, k: nat)
    requires NextInFamily(tokens, i, k) && NextInFamily(tokens, j, k)
    ensures i == j
  {
    assert SameFamily(tokens, i, j) && SameFamily(tokens, j, i);
  }

  /**
   The links form a single chain per family: a link points to the token issued next in the family, every
   token but the last has one, so they run strictly forwards and no two meet.
   */
  lemma LinksAreOneChain(run: seq<Tokens>, i: nat, j: nat, k: nat)
    requires IsRun(run) && i < |run| && j < k < |run[i]|
    ensures run[i][j].replacedBy == Some(k) <==> NextInFamily(run[i], j, k)
    ensures run[i][j].replacedBy.Some? && run[i][k].replacedBy.Some? ==> run[i][j].replacedBy != run[i][k].replacedBy
  {
    RunKeepsChain(run, i);
    var tokens := run[i];
    if NextInFamily(tokens, j, k) {
      var m := tokens[j].replacedBy.value;
      assert NextInFamily(tokens, j, m);
      assert m == k by {
        assert SameFamily(tokens, j, m) && SameFamily(tokens, j, k);
      }
    }
    if tokens[j].replacedBy.Some? && tokens[j].replacedBy == tokens[k].replacedBy {
      NextIsInjective(tokens, j, k, tokens[j].replacedBy.value);
    }
  }

  ghost predicate Dead(tokens: Tokens, family: nat) {
    (exists i | 0 <= i < |tokens| :: tokens[i].family == family)
    && forall i | 0 <= i < |tokens| && tokens[i].family == family :: tokens[i].status != Active
  }

  function SizeOf(tokens: Tokens, family: nat): nat {
    if tokens == [] then 0
    else SizeOf(tokens[..|tokens| - 1], family) + if tokens[|tokens| - 1].family == family then 1 else 0
  }

  lemma {:induction false} SizeFrame(tokens: Tokens, tokens': Tokens, family: nat)
    requires |tokens'| == |tokens| && forall i | 0 <= i < |tokens| :: tokens'[i].family == tokens[i].family
    ensures SizeOf(tokens', family) == SizeOf(tokens, family)
  {
    if tokens == [] {
    } else {
      SizeFrame(tokens[..|tokens| - 1], tokens'[..|tokens| - 1], family);
    }
  }

  lemma DeadUnderStatuses(tokens: Tokens, tokens': Tokens, family: nat)
    requires Dead(tokens, family) && |tokens'| == |tokens|
    requires forall i | 0 <= i < |tokens| :: tokens'[i] == tokens[i] || tokens'[i] == RevokeOne(tokens[i])
    ensures Dead(tokens', family) && SizeOf(tokens', family) == SizeOf(tokens, family)
  {
    var i :| 0 <= i < |tokens| && tokens[i].family == family;
    assert tokens'[i].family == family;
    SizeFrame(tokens, tokens', family);
  }

  /** A token issued elsewhere, possibly replacing one of its own family. */
  lemma DeadUnderNewToken(tokens: Tokens, tokens': Tokens, token: Token, family: nat)
    requires Dead(tokens, family) && |tokens'| == |tokens| && token.family != family
    requires forall i | 0 <= i < |tokens| :: tokens'[i].family == tokens[i].family && (tokens[i].family == family ==> tokens'[i] == tokens[i])
    ensures Dead(tokens' + [token], family) && SizeOf(tokens' + [token], family) == SizeOf(tokens, family)
  {
    var i :| 0 <= i < |tokens| && tokens[i].family == family;
    assert (tokens' + [token])[i].family == family;
    assert (tokens' + [token])[..|tokens|] == tokens';
    SizeFrame(tokens, tokens', family);
  }

  /** No step brings a dead family back: it stays dead and gains no token. */
  lemma DeadStays(tokens: Tokens, a: Action, family: nat)
    requires Enabled(tokens, a) && Dead(tokens, family)
    ensures Dead(Step(tokens, a), family) && SizeOf(Step(tokens, a), family) == SizeOf(tokens, family)
  {
    hide SizeOf;
    match a
    case Login(user, newFamily, expiresAt) =>
      DeadUnderNewToken(tokens, tokens, Token(user, newFamily, Active, expiresAt, None), family);
    case Present(id, now, ttl, accountActive) =>
      var (tokens', outcome) := Refresh(tokens, id, now, ttl, accountActive);
      if outcome.Issued? {
        DeadUnderNewToken(tokens, tokens'[..|tokens|], tokens'[|tokens|], family);
        assert tokens' == tokens'[..|tokens|] + [tokens'[|tokens|]];
      } else {
        DeadUnderStatuses(tokens, tokens', family);
      }
    case _ => DeadUnderStatuses(tokens, Step(tokens, a), family);
  }

  /** Once a family is dead no later call ever issues a token in it. */
  lemma {:induction false} DeadForGood(run: seq<Tokens>, i: nat, j: nat, family: nat)
    requires IsRun(run) && i <= j < |run| && Dead(run[i], family)
    ensures Dead(run[j], family) && SizeOf(run[j], family) == SizeOf(run[i], family)
  {
    if i == j {
    } else {
      DeadForGood(run, i, j - 1, family);
      assert Next(run[j - 1], run[j - 1 + 1]);
      var a :| Enabled(run[j - 1], a) && Step(run[j - 1], a) == run[j];
      DeadStays(run[j - 1], a, family);
    }
  }

  /**
   A refresh issues a token exactly when the presented one is active, in date and its account active;
   any other refresh with a known token kills the family, expiry included, since no other token of it
   can be active. So does the owner's logout.
   */
  lemma PresentingKillsOrRotates(run: seq<Tokens>, i: nat, id: nat, now: nat, ttl: nat, accountActive: bool)
    requires IsRun(run) && i < |run| && id < |run[i]|
    ensures var (tokens, token) := (run[i], run[i][id]);
      var (tokens', outcome) := Refresh(tokens, id, now, ttl, accountActive);
      && (outcome.Issued? <==> token.status == Active && token.expiresAt >= now && accountActive)
      && (outcome.Issued? ==>
            outcome.id == |tokens| < |tokens'| && SameFamily(tokens', id, outcome.id) && tokens'[outcome.id].status == Active)
      && (!outcome.Issued? ==> Dead(tokens', token.family))
      && Dead(Logout(tokens, id, token.user), token.family)
  {
    RunKeepsChain(run, i);
    var tokens, token := run[i], run[i][id];
    var (tokens', outcome) := Refresh(tokens, id, now, ttl, accountActive);
    assert Logout(tokens, id, token.user)[id].family == token.family;
    if !outcome.Issued? {
      assert tokens'[id].family == token.family;
      forall k | 0 <= k < |tokens'| && tokens'[k].family == token.family
        ensures tokens'[k].status != Active
      {
        assert SameFamily(tokens, id, k) && SameFamily(tokens, k, id);
      }
    }
  }

  /** After a token that is not active has been presented, no later call issues a token in its family. */
  lemma ReuseEndsFamily(run: seq<Tokens>, i: nat, j: nat, id: nat, now: nat, ttl: nat, accountActive: bool)
    requires IsRun(run) && i < j < |run| && id < |run[i]| && run[i][id].status != Active
    requires run[i + 1] == Step(run[i], Present(id, now, ttl, accountActive))
    ensures Dead(run[j], run[i][id].family) && SizeOf(run[j], run[i][id].family) == SizeOf(run[i], run[i][id].family)
  {
    PresentingKillsOrRotates(run, i, id, now, ttl, accountActive);
    DeadForGood(run, i + 1, j, run[i][id].family);
    SizeFrame(run[i], run[i + 1], run[i][id].family);
  }

  // ---- The service ----

  class Service {
    var tokens: Tokens

    constructor ()
      ensures tokens == []
    {
      tokens := [];
    }

    method RevokeAll(family: nat)
      modifies this
      ensures tokens == RevokeFamily(old(tokens), family)
    {
      var kept := [];
      for i := 0 to |tokens|
        invariant tokens == old(tokens) && |kept| == i
        invariant forall k | 0 <= k < i :: kept[k] == RevokeFamily(tokens, family)[k]
      {
        kept := kept + [if tokens[i].family == family && tokens[i].status != Revoked then tokens[i].(status := Revoked) else tokens[i]];
      }
      tokens := kept;
    }

    method IssueToken(user: nat, family: nat, expiresAt: nat) returns (id: nat)
      modifies this
      ensures tokens == Issue(old(tokens), user, family, expiresAt) && id == |old(tokens)|
    {
      id := |tokens|;
      tokens := tokens + [Token(user, family, Active, expiresAt, None)];
    }

    method RefreshToken(id: nat, now: nat, ttl: nat, accountActive: bool) returns (r: Outcome)
      modifies this
      ensures (tokens, r) == Refresh(old(tokens), id, now, ttl, accountActive)
    {
      if id >= |tokens| {
        return UnknownToken;
      }
      var existing := tokens[id];
      if existing.status != Active {
        RevokeAll(existing.family);
        return ReuseDetected;
      }
      if existing.expiresAt < now {
        tokens := tokens[id := existing.(status := Revoked)];
        return SessionExpired;
      }
      if !accountActive {
        RevokeAll(existing.family);
        return AccountInactive;
      }
      var newId := IssueToken(existing.user, existing.family, now + ttl);
      tokens := tokens[id := existing.(status := Rotated, replacedBy := Some(newId))];
      assert tokens == Refresh(old(tokens), id, now, ttl, accountActive).0;
      return Issued(newId);
    }

    method LogoutToken(id: nat, user: nat)
      modifies this
      ensures tokens == Logout(old(tokens), id, user)
    {
      if id < |tokens| && tokens[id].user == user {
        RevokeAll(tokens[id].family);
      }
    }
  }
}
