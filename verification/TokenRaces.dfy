/**
 Refreshes that are no single step. The service reads a token, decides, and writes later without looking
 again; in between other refreshes, logouts and revocations go on. The results say exactly which runs
 still keep what TokenFamilies promises.
 */
module TokenRaces {
  import opened Wrappers
  import opened TokenFamilies

  /** What a refresh decides on the token it has read. */
  datatype Decision = Rotation | FamilyRevocation | Expiry

  datatype Pending = Pending(id: nat, decision: Decision, now: nat, ttl: nat, written: bool)

  datatype State = State(tokens: Tokens, calls: seq<Pending>)

  const Initial := State([], [])

  datatype Event =
    | Other(action: Action)
    | Read(id: nat, now: nat, ttl: nat, accountActive: bool)
    | Write(c: nat)
    | DieBetweenWrites(c: nat)

  function Decide(token: Token, now: nat, accountActive: bool): Decision {
    if token.status != Active then FamilyRevocation
    else if token.expiresAt < now then Expiry
    else if !accountActive then FamilyRevocation
    else Rotation
  }

  predicate Due(s: State, c: nat) {
    c < |s.calls| && !s.calls[c].written && s.calls[c].id < |s.tokens|
  }

  /** Logins, logouts and revocations are one step: all they read never changes. */
  predicate Allowed(s: State, e: Event) {
    match e
    case Other(action) => !action.Present? && Enabled(s.tokens, action)
    case Read(id, _, _, _) => id < |s.tokens|
    case Write(c) => Due(s, c)
    case DieBetweenWrites(c) => Due(s, c) && s.calls[c].decision == Rotation
  }

  function Written(s: State, c: nat): State
    requires c < |s.calls|
  {
    s.(calls := s.calls[c := s.calls[c].(written := true)])
  }

  /** The new token is there, and the old one does not know it yet. */
  function HalfRotate(tokens: Tokens, id: nat, ttl: nat, now: nat): Tokens
    requires id < |tokens|
  {
    tokens + [Token(tokens[id].user, tokens[id].family, Active, now + ttl, None)]
  }

  function After(s: State, e: Event): State
    requires Allowed(s, e)
  {
    match e
    case Other(action) => s.(tokens := Step(s.tokens, action))
    case Read(id, now, ttl, accountActive) =>
      s.(calls := s.calls + [Pending(id, Decide(s.tokens[id], now, accountActive), now, ttl, false)])
    case Write(c) =>
      var call := s.calls[c];
      Written(s, c).(tokens :=
        match call.decision
        case Rotation => Rotate(s.tokens, call.id, call.ttl, call.now)
        case FamilyRevocation => RevokeFamily(s.tokens, s.tokens[call.id].family)
        case Expiry => s.tokens[call.id := RevokeOne(s.tokens[call.id])])
    case DieBetweenWrites(c) =>
      var call := s.calls[c];
      Written(s, c).(tokens := HalfRotate(s.tokens, call.id, call.ttl, call.now))
  }

  ghost predicate IsRun(run: seq<State>, events: seq<Event>) {
    && |run| == |events| + 1 && run[0] == Initial
    && forall i | 0 <= i < |events| :: Allowed(run[i], events[i]) && run[i + 1] == After(run[i], events[i])
  }

  /** What is decided at the read: a rotation exactly for an active token in date whose account is active. */
  lemma DecisionMeans(token: Token, now: nat, accountActive: bool)
    ensures match Decide(token, now, accountActive)
      case Rotation => token.status == Active && now <= token.expiresAt && accountActive
      case Expiry => token.status == Active && token.expiresAt < now
      case FamilyRevocation => token.status in {Rotated, Revoked} || (now <= token.expiresAt && !accountActive)
  {
  }

  // ---- One rotation, at the moment of its writes ----

  lemma LastOfFamily(tokens: Tokens, id: nat) returns (last: nat)
    requires id < |tokens|
    ensures SameFamily(tokens, id, last) && id <= last
    ensures forall k: nat | last < k :: !SameFamily(tokens, last, k)
    decreases |tokens| - id
  {
    if k: nat :| id < k && SameFamily(tokens, id, k) {
      last := LastOfFamily(tokens, k);
    } else {
      last := id;
    }
  }

  /** In a chain the active token has no successor, and a token without one is the last of its family. */
  lemma LastInChain(tokens: Tokens, id: nat)
    requires ChainOk(tokens) && id < |tokens|
    ensures tokens[id].replacedBy.None? <==> forall k: nat | id < k :: !SameFamily(tokens, id, k)
    ensures tokens[id].status == Active ==> tokens[id].replacedBy.None?
    ensures tokens[id].replacedBy.None? ==> (Dead(tokens, tokens[id].family) <==> tokens[id].status != Active)
  {
    if tokens[id].replacedBy.Some? {
      assert NextInFamily(tokens, id, tokens[id].replacedBy.value);
    } else {
      forall k | 0 <= k < |tokens| && tokens[k].family == tokens[id].family && k != id
        ensures tokens[k].status != Active
      {
        assert SameFamily(tokens, k, id) && SameFamily(tokens, id, k);
      }
    }
  }

  /** The chain survives the writes of a rotation exactly when the token has still no successor. */
  lemma ChainSurvivesExactlyWhen(tokens: Tokens, id: nat, ttl: nat, now: nat)
    requires ChainOk(tokens) && id < |tokens|
    ensures ChainOk(Rotate(tokens, id, ttl, now)) <==> tokens[id].replacedBy.None?
  {
    if tokens[id].replacedBy.Some? {
      SecondSuccessorBreaks(tokens, id, ttl, now);
    } else {
      LastTokenRotates(tokens, id, ttl, now);
    }
  }

  lemma SecondSuccessorBreaks(tokens: Tokens, id: nat, ttl: nat, now: nat)
    requires ChainOk(tokens) && id < |tokens| && tokens[id].replacedBy.Some?
    ensures !ChainOk(Rotate(tokens, id, ttl, now))
  {
    var tokens', n, j := Rotate(tokens, id, ttl, now), |tokens|, tokens[id].replacedBy.value;
    assert NextInFamily(tokens, id, j);
    assert tokens'[id].replacedBy == Some(n) && id < j < n && SameFamily(tokens', id, j);
    assert !NextInFamily(tokens', id, n);
  }

  /** The chain looks at no status but that nothing before the last is active. */
  lemma LastTokenRotates(tokens: Tokens, id: nat, ttl: nat, now: nat)
    requires ChainOk(tokens) && id < |tokens| && tokens[id].replacedBy.None?
    ensures ChainOk(Rotate(tokens, id, ttl, now))
  {
    LastInChain(tokens, id);
    var awake := tokens[id := tokens[id].(status := Active)];
    assert ChainOk(awake) by {
      assert forall i: nat, j: nat :: SameFamily(awake, i, j) <==> SameFamily(tokens, i, j);
      forall i: nat, j: nat | i < |awake| && awake[i].replacedBy == Some(j)
        ensures NextInFamily(awake, i, j)
      {
        assert NextInFamily(tokens, i, j);
      }
    }
    RotationKeepsChain(awake, id, ttl, now);
    assert Rotate(awake, id, ttl, now) == Rotate(tokens, id, ttl, now);
  }

  /** A rotation gives its family an active token, whatever the family was. */
  lemma RotationRevives(tokens: Tokens, id: nat, ttl: nat, now: nat)
    requires id < |tokens|
    ensures !Dead(Rotate(tokens, id, ttl, now), tokens[id].family)
  {
    assert Rotate(tokens, id, ttl, now)[|tokens|] == Token(tokens[id].user, tokens[id].family, Active, now + ttl, None);
  }

  /**
   Chain and dead families both survive the writes of a rotation exactly when the token is still active;
   that is the condition which the update does not check.
   */
  lemma RotationSoundExactlyWhen(tokens: Tokens, id: nat, ttl: nat, now: nat)
    requires ChainOk(tokens) && id < |tokens|
    ensures var tokens' := Rotate(tokens, id, ttl, now);
      ChainOk(tokens') && (forall family: nat | Dead(tokens, family) :: Dead(tokens', family) && SizeOf(tokens', family) == SizeOf(tokens, family))
      <==> tokens[id].status == Active
  {
    ChainSurvivesExactlyWhen(tokens, id, ttl, now);
    LastInChain(tokens, id);
    RotationRevives(tokens, id, ttl, now);
    if tokens[id].status == Active {
      forall family: nat | Dead(tokens, family)
        ensures Dead(Rotate(tokens, id, ttl, now), family) && SizeOf(Rotate(tokens, id, ttl, now), family) == SizeOf(tokens, family)
      {
        DeadUnderRotation(tokens, id, ttl, now, family);
      }
    }
  }

  lemma DeadUnderRotation(tokens: Tokens, id: nat, ttl: nat, now: nat, family: nat)
    requires id < |tokens| && tokens[id].family != family && Dead(tokens, family)
    ensures Dead(Rotate(tokens, id, ttl, now), family) && SizeOf(Rotate(tokens, id, ttl, now), family) == SizeOf(tokens, family)
  {
    var tokens', n := Rotate(tokens, id, ttl, now), |tokens|;
    DeadUnderNewToken(tokens, tokens'[..n], tokens'[n], family);
    assert tokens' == tokens'[..n] + [tokens'[n]];
  }

  /** A refresh that dies between its two writes always leaves a token outside the chain. */
  lemma HalfRotationBreaks(tokens: Tokens, id: nat, ttl: nat, now: nat)
    requires ChainOk(tokens) && id < |tokens|
    ensures !ChainOk(HalfRotate(tokens, id, ttl, now))
  {
    var last := LastOfFamily(tokens, id);
    LastInChain(tokens, last);
    assert SameFamily(HalfRotate(tokens, id, ttl, now), last, |tokens|);
  }

  /**
   Taking the two writes of a rotation as one step changes nothing else: a revocation that falls between
   them ends the family just as one after them, and leaves all but the label of the old token the same.
   */
  lemma RevocationBetweenWrites(tokens: Tokens, id: nat, ttl: nat, now: nat)
    requires id < |tokens|
    ensures var (family, n) := (tokens[id].family, |tokens|);
      var between := RevokeFamily(HalfRotate(tokens, id, ttl, now), family);
      var after := RevokeFamily(Rotate(tokens, id, ttl, now), family);
      && between[id := between[id].(status := Rotated, replacedBy := Some(n))] == after[id := after[id].(status := Rotated)]
      && Dead(after, family) && Dead(after[id := after[id].(status := Rotated)], family)
  {
    var after := RevokeFamily(Rotate(tokens, id, ttl, now), tokens[id].family);
    assert after[id].family == tokens[id].family;
    assert after[id := after[id].(status := Rotated)][id].family == tokens[id].family;
  }

  // ---- Whole runs ----

  /** The event writes over a token that is no longer what was read, or writes half. */
  ghost predicate Stale(s: State, e: Event)
    requires Allowed(s, e)
  {
    || e.DieBetweenWrites?
    || (e.Write? && s.calls[e.c].decision == Rotation && s.tokens[s.calls[e.c].id].status != Active)
  }

  ghost predicate KeepsDead(tokens: Tokens, tokens': Tokens) {
    forall family: nat | Dead(tokens, family) :: Dead(tokens', family) && SizeOf(tokens', family) == SizeOf(tokens, family)
  }

  lemma StatusesKeepDead(tokens: Tokens, tokens': Tokens)
    requires |tokens'| == |tokens|
    requires forall i | 0 <= i < |tokens| :: tokens'[i] == tokens[i] || tokens'[i] == RevokeOne(tokens[i])
    ensures KeepsDead(tokens, tokens')
  {
    forall family: nat | Dead(tokens, family)
      ensures Dead(tokens', family) && SizeOf(tokens', family) == SizeOf(tokens, family)
    {
      DeadUnderStatuses(tokens, tokens', family);
    }
  }

  lemma OtherKeeps(tokens: Tokens, action: Action)
    requires ChainOk(tokens) && Enabled(tokens, action) && !action.Present?
    ensures ChainOk(Step(tokens, action)) && KeepsDead(tokens, Step(tokens, action))
  {
    StepKeepsChain(tokens, action);
    forall family: nat | Dead(tokens, family)
      ensures Dead(Step(tokens, action), family) && SizeOf(Step(tokens, action), family) == SizeOf(tokens, family)
    {
      DeadStays(tokens, action, family);
    }
  }

  /** From a sound table an event leads to a sound one, and revives no family, exactly when it is not stale. */
  lemma EventSoundExactlyWhen(s: State, e: Event)
    requires ChainOk(s.tokens) && Allowed(s, e)
    ensures ChainOk(After(s, e).tokens) && KeepsDead(s.tokens, After(s, e).tokens) <==> !Stale(s, e)
  {
    hide ChainOk, Dead, SizeOf, Rotate, HalfRotate;
    match e
    case Other(action) => OtherKeeps(s.tokens, action);
    case Read(_, _, _, _) =>
    case DieBetweenWrites(c) => HalfRotationBreaks(s.tokens, s.calls[c].id, s.calls[c].ttl, s.calls[c].now);
    case Write(c) =>
      var call := s.calls[c];
      if call.decision == Rotation {
        RotationSoundExactlyWhen(s.tokens, call.id, call.ttl, call.now);
      } else {
        StatusesKeepChain(s.tokens, After(s, e).tokens);
        StatusesKeepDead(s.tokens, After(s, e).tokens);
      }
  }

  /** What TokenFamilies promises of its runs, of this one: chains throughout, and no family comes back to life. */
  ghost predicate Sound(run: seq<State>) {
    && (forall i | 0 <= i < |run| :: ChainOk(run[i].tokens))
    && (forall i | 0 <= i < |run| - 1 :: KeepsDead(run[i].tokens, run[i + 1].tokens))
  }

  ghost predicate NothingStale(run: seq<State>, events: seq<Event>)
    requires IsRun(run, events)
  {
    forall i | 0 <= i < |events| :: !Stale(run[i], events[i])
  }

  lemma {:induction false} ChainUpTo(run: seq<State>, events: seq<Event>, i: nat)
    requires IsRun(run, events) && NothingStale(run, events) && i < |run|
    ensures ChainOk(run[i].tokens)
  {
    if i == 0 {
    } else {
      ChainUpTo(run, events, i - 1);
      EventSoundExactlyWhen(run[i - 1], events[i - 1]);
      assert run[i - 1 + 1] == run[i];
    }
  }

  /**
   A run keeps every promise about families exactly when each rotation found its token still active when
   it wrote, and none died between its two writes. A conditional update would make that so; the service
   updates by id alone.
   */
  lemma SoundExactlyWhen(run: seq<State>, events: seq<Event>)
    requires IsRun(run, events)
    ensures Sound(run) <==> NothingStale(run, events)
  {
    if Sound(run) {
      forall i | 0 <= i < |events|
        ensures !Stale(run[i], events[i])
      {
        assert KeepsDead(run[i].tokens, run[i + 1].tokens);
        EventSoundExactlyWhen(run[i], events[i]);
      }
    }
    if NothingStale(run, events) {
      forall i | 0 <= i < |run|
        ensures ChainOk(run[i].tokens)
      {
        ChainUpTo(run, events, i);
      }
      forall i | 0 <= i < |run| - 1
        ensures KeepsDead(run[i].tokens, run[i + 1].tokens)
      {
        assert ChainOk(run[i].tokens);
        EventSoundExactlyWhen(run[i], events[i]);
      }
    }
  }

  // ---- How a run goes wrong ----

  function Last(run: seq<State>): State
    requires run != []
  {
    run[|run| - 1]
  }

  lemma Extend(run: seq<State>, events: seq<Event>, e: Event) returns (run': seq<State>)
    requires IsRun(run, events) && Allowed(Last(run), e)
    ensures run' == run + [After(Last(run), e)] && IsRun(run', events + [e])
  {
    run' := run + [After(Last(run), e)];
    forall i | 0 <= i < |events + [e]|
      ensures Allowed(run'[i], (events + [e])[i]) && run'[i + 1] == After(run'[i], (events + [e])[i])
    {
      if i < |events| {
        assert Allowed(run[i], events[i]) && run[i + 1] == After(run[i], events[i]);
      }
    }
  }

  /**
   Whenever a rotation has read and not yet written, its user's logout can fall in between, and the
   rotation then brings the family back: the session goes on after the logout.
   */
  lemma LogoutMayBeUndone(run: seq<State>, events: seq<Event>, c: nat) returns (run': seq<State>)
    requires IsRun(run, events) && Due(Last(run), c) && Last(run).calls[c].decision == Rotation
    ensures var token := Last(run).tokens[Last(run).calls[c].id];
      var signOut := Other(SignOut(Last(run).calls[c].id, token.user));
      && IsRun(run', events + [signOut] + [Write(c)]) && run <= run' && |run'| == |run| + 2
      && Dead(run'[|run|].tokens, token.family) && !Dead(Last(run').tokens, token.family)
  {
    var s, id := Last(run), Last(run).calls[c].id;
    var token, signOut := s.tokens[id], Other(SignOut(id, s.tokens[id].user));
    var out := Extend(run, events, signOut);
    var gone := RevokeFamily(s.tokens, token.family);
    assert Last(out).tokens == gone && gone[id].family == token.family;
    assert Dead(gone, token.family);
    RotationRevives(gone, id, s.calls[c].ttl, s.calls[c].now);
    run' := Extend(out, events + [signOut], Write(c));
  }

  /**
   Whenever a rotation has read an active token and not yet written, a second refresh of it can be
   decided, and once both have written the family has two active tokens.
   */
  lemma TwoMayRotate(run: seq<State>, events: seq<Event>, c: nat) returns (run': seq<State>)
    requires IsRun(run, events) && Due(Last(run), c) && Last(run).calls[c].decision == Rotation
    requires Decide(Last(run).tokens[Last(run).calls[c].id], Last(run).calls[c].now, true) == Rotation
    ensures var (s, call) := (Last(run), Last(run).calls[c]);
      && IsRun(run', events + [Read(call.id, call.now, call.ttl, true)] + [Write(c)] + [Write(|s.calls|)]) && run <= run'
      && var (tokens, first) := (Last(run').tokens, |s.tokens|);
         SameFamily(tokens, first, first + 1) && tokens[first].status == tokens[first + 1].status == Active
  {
    var s, call := Last(run), Last(run).calls[c];
    var read := Read(call.id, call.now, call.ttl, true);
    run' := Extend(run, events, read);
    run' := Extend(run', events + [read], Write(c));
    run' := Extend(run', events + [read] + [Write(c)], Write(|s.calls|));
  }
}
