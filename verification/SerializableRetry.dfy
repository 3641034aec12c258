/**
 The bounded retry around a serializable transaction. Each attempt either commits a value, fails
 with an error of its own, or is rolled back by the database as a serialization conflict; only the
 last is tried again.
 */
module SerializableRetry {

  const DEFAULT_MAX_ATTEMPTS := 3
  const MAX_DELAY_MS := 100

  datatype Attempt<T, E> = Committed(value: T) | Failed(error: E) | Conflict

  /** Index of the attempt whose outcome the caller sees: the first that is no conflict, or the last. */
  function Decisive<T, E>(attempts: seq<Attempt<T, E>>): (k: nat)
    requires attempts != []
    ensures k < |attempts|
    ensures forall i | 0 <= i < k :: attempts[i].Conflict?
    ensures attempts[k].Conflict? ==> k == |attempts| - 1
  {
    if !attempts[0].Conflict? || |attempts| == 1 then 0 else 1 + Decisive(attempts[1..])
  }

  function Pow2(n: nat): nat {
    if n == 0 then 1 else 2 * Pow2(n - 1)
  }

  /** The pause before attempt `n + 1`, jitter left out. */
  function Delay(n: nat, baseDelay: nat): nat
    requires n >= 1
  {
    var delay := baseDelay * Pow2(n - 1);
    if delay <= MAX_DELAY_MS then delay else MAX_DELAY_MS
  }

  /**
   The loop: `script` holds what the attempts would give, in order. At most one of the attempts made
   commits, none after the first that is no conflict, and the pauses double up to their cap.
   */
  method Run<T, E>(script: seq<Attempt<T, E>>, maxAttempts: nat, baseDelay: nat)
    returns (result: Attempt<T, E>, made: nat, pauses: seq<nat>)
    requires |script| >= maxAttempts >= 1
    ensures made == Decisive(script[..maxAttempts]) + 1 && result == script[made - 1]
    ensures forall i | 0 <= i < made - 1 :: script[i].Conflict?
    ensures result.Conflict? <==> forall i | 0 <= i < maxAttempts :: script[i].Conflict?
    ensures |pauses| == made - 1 && forall i | 0 <= i < |pauses| :: pauses[i] == Delay(i + 1, baseDelay)
  {
    pauses := [];
    var attempt := 1;
    while attempt <= maxAttempts
      invariant 1 <= attempt <= maxAttempts + 1
      invariant forall i | 0 <= i < attempt - 1 :: script[i].Conflict?
      invariant |pauses| == if attempt <= maxAttempts then attempt - 1 else maxAttempts - 1
      invariant forall i | 0 <= i < |pauses| :: pauses[i] == Delay(i + 1, baseDelay)
    {
      if !script[attempt - 1].Conflict? {
        return script[attempt - 1], attempt, pauses;
      }
      if attempt < maxAttempts {
        pauses := pauses + [Delay(attempt, baseDelay)];
      }
      attempt := attempt + 1;
    }
    return script[maxAttempts - 1], maxAttempts, pauses;
  }

  /** The first pause is the base delay, each further one twice the one before, and none is above 100 ms. */
  lemma PausesDouble(n: nat, baseDelay: nat)
    requires n >= 1
    ensures Delay(1, baseDelay) == if baseDelay <= 100 then baseDelay else 100
    ensures Delay(n + 1, baseDelay) == if 2 * Delay(n, baseDelay) <= 100 then 2 * Delay(n, baseDelay) else 100
  {
    assert Pow2(0) == 1;
    assert Pow2(n) == 2 * Pow2(n - 1);
    assert baseDelay * Pow2(n) == 2 * (baseDelay * Pow2(n - 1));
  }
}
