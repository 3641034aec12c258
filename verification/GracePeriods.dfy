/**
 The dates behind the two lifecycle jobs, along the runs of BillingRuns. The first reads the trials that
 have ended and expires each later; the second reads the subscriptions whose grace has run out and suspends
 each later if it is still past due, without looking at the grace again.
 */
module GracePeriods {
  import opened Wrappers
  import opened Billing
  import opened BillingRuns
  import opened SubscriptionHistory
  import Sub = SubscriptionStatus

  /** The renewal date of a subscription, while it is past due the end of its grace. */
  function Renewal(s: State, x: nat): Option<nat> {
    if x in s.db.subscriptions then s.db.subscriptions[x].renewal else None
  }

  predicate Past(date: Option<nat>, now: nat) {
    date.Some? && date.value < now
  }

  /** The step from `k` to `k + 1` gives the subscription another renewal date. */
  ghost predicate Renews(run: seq<State>, k: nat, x: nat)
    requires k + 1 < |run|
  {
    Renewal(run[k + 1], x) != Renewal(run[k], x)
  }

  /** The last step between two points of a run that renews the subscription. */
  ghost function LastRenewal(run: seq<State>, i: nat, j: nat, x: nat): (k: Option<nat>)
    requires i <= j < |run|
    ensures k.Some? ==> i <= k.value < j && Renews(run, k.value, x)
    ensures forall m | i <= m < j && Renews(run, m, x) :: k.Some? && m <= k.value
  {
    if i == j then None
    else if Renews(run, j - 1, x) then Some(j - 1)
    else LastRenewal(run, i, j - 1, x)
  }

  /** Only a delivery renews: a failure with seven days of grace, a success with the date it had read. */
  lemma RenewalIsADelivery(s: State, a: Action, x: nat)
    requires Enabled(s, a) && x in s.db.subscriptions && Renewal(Step(s, a), x) != Renewal(s, x)
    ensures a.Commit? && Attempt(s, a.d).Applied?
    ensures s.db.payments[s.deliveries[a.d].payment.value].subscription == Some(x)
    ensures Renewal(Step(s, a), x) ==
      if s.deliveries[a.d].notice.succeeded then s.deliveries[a.d].pc.read.renewal else Some(s.clock + 604_800_000)
  {
    hide Resolve;
    if a.Commit? {
      var delivery := s.deliveries[a.d];
      assert Step(s, a) == AfterCommit(s, a.d, Attempt(s, a.d));
      if Attempt(s, a.d).Applied? {
        AppliedLogs(s.db, delivery.payment.value, delivery.notice.succeeded, delivery.pc.read, s.clock, s.clock + GRACE_PERIOD);
      }
    }
  }

  lemma ClockAdvances(s: State, a: Action)
    requires Enabled(s, a)
    ensures s.clock <= Step(s, a).clock
  {
  }

  /** The renewal date is that of the last renewal, or the one from before. */
  lemma {:induction false} RenewalSince(run: seq<State>, i: nat, j: nat, x: nat)
    requires IsRun(run) && i <= j < |run|
    ensures run[i].clock <= run[j].clock
    ensures Renewal(run[j], x) == match LastRenewal(run, i, j, x)
      case None => Renewal(run[i], x)
      case Some(k) => Renewal(run[k + 1], x)
  {
    hide Step, Enabled;
    if i < j {
      RenewalSince(run, i, j - 1, x);
      assert Next(run[j - 1], run[j - 1 + 1]);
      var a :| Enabled(run[j - 1], a) && Step(run[j - 1], a) == run[j];
      ClockAdvances(run[j - 1], a);
    }
  }

  /** A swap suspends what it finds past due, whatever its grace. */
  lemma SwapSuspends(s: State, pass: nat)
    requires Enabled(s, SwapStatus(pass)) && s.passes[pass].from == Sub.PastDue && s.passes[pass].to == Sub.Suspended
    requires StatusAt(s, s.passes[pass].rest[0]) == Sub.PastDue
    ensures StatusAt(Step(s, SwapStatus(pass)), s.passes[pass].rest[0]) == Sub.Suspended
  {
  }

  /**
   A subscription that the job read with its grace run out, and finds past due at its swap, is suspended
   with its grace still running exactly when a delivery has renewed it since the read, and the last such
   renewal has not run out in turn.
   */
  lemma SuspendedInGraceExactlyWhen(run: seq<State>, i: nat, j: nat, pass: nat)
    requires IsRun(run) && i <= j < |run| && Enabled(run[j], SwapStatus(pass))
    requires run[j].passes[pass].from == Sub.PastDue && run[j].passes[pass].to == Sub.Suspended
    requires var x := run[j].passes[pass].rest[0];
      Past(Renewal(run[i], x), run[i].clock) && StatusAt(run[j], x) == Sub.PastDue
    ensures var (x, k) := (run[j].passes[pass].rest[0], LastRenewal(run, i, j, run[j].passes[pass].rest[0]));
      && StatusAt(Step(run[j], SwapStatus(pass)), x) == Sub.Suspended
      && (!Past(Renewal(run[j], x), run[j].clock) <==> k.Some? && !Past(Renewal(run[k.value + 1], x), run[j].clock))
  {
    hide Step;
    SwapSuspends(run[j], pass);
    RenewalSince(run, i, j, run[j].passes[pass].rest[0]);
  }

  // ---- When a job is due, and what follows ----

  /** What the two batch reads select. */
  lemma BatchExactly(subscription: Subscription, now: nat)
    ensures InBatch(subscription, Sub.Trial, now) <==>
      subscription.status == Sub.Trial && subscription.trialEnd.Some? && subscription.trialEnd.value < now
    ensures InBatch(subscription, Sub.PastDue, now) <==>
      subscription.status == Sub.PastDue && subscription.renewal.Some? && subscription.renewal.value < now
  {
  }

  predicate TrialOver(s: State, x: nat) {
    x in s.db.subscriptions && s.db.subscriptions[x].trialEnd.Some? && s.db.subscriptions[x].trialEnd.value < s.clock
  }

  /** Passes over trials hold only trials that have ended, and so does the status they lead to. */
  ghost predicate TrialsOver(s: State) {
    && (forall j, x | 0 <= j < |s.passes| && s.passes[j].from == Sub.Trial && x in s.passes[j].rest :: TrialOver(s, x))
    && (forall x | x in s.db.subscriptions && s.db.subscriptions[x].status == Sub.Expired :: TrialOver(s, x))
  }

  lemma TrialStaysOver(s: State, a: Action, x: nat)
    requires Enabled(s, a) && TrialOver(s, x)
    ensures TrialOver(Step(s, a), x)
  {
    hide Resolve;
    if a.Commit? && Attempt(s, a.d).Applied? {
      var delivery := s.deliveries[a.d];
      assert Step(s, a) == AfterCommit(s, a.d, Attempt(s, a.d));
      AppliedLogs(s.db, delivery.payment.value, delivery.notice.succeeded, delivery.pc.read, s.clock, s.clock + GRACE_PERIOD);
    }
  }

  lemma PassStep(s: State, a: Action, j: nat, x: nat)
    requires Enabled(s, a) && j < |Step(s, a).passes| && x in Step(s, a).passes[j].rest
    ensures if j < |s.passes| then Step(s, a).passes[j].from == s.passes[j].from && x in s.passes[j].rest
            else a.ReadBatch? && Step(s, a).passes[j].from == a.from && InBatch(s.db.subscriptions[x], a.from, s.clock)
                 && x in s.db.subscriptions && Step(s, a).db == s.db && Step(s, a).clock == s.clock
  {
    hide Resolve;
  }

  /** A subscription is expired after a step only if it was, or a pass over trials has just reached it. */
  lemma ExpiredByPass(s: State, a: Action, x: nat)
    requires SubSide(s) && Enabled(s, a) && StatusAt(Step(s, a), x) == Sub.Expired
    ensures StatusAt(s, x) == Sub.Expired
         || (a.SwapStatus? && s.passes[a.j].from == Sub.Trial && x == s.passes[a.j].rest[0])
  {
    hide Resolve;
    if a.SwapStatus? {
      assert PassOk(s.db, s.passes[a.j]);
    } else if a.Commit? && Attempt(s, a.d).Applied? {
      var delivery := s.deliveries[a.d];
      assert Step(s, a) == AfterCommit(s, a.d, Attempt(s, a.d));
      AppliedLogs(s.db, delivery.payment.value, delivery.notice.succeeded, delivery.pc.read, s.clock, s.clock + GRACE_PERIOD);
    }
  }

  lemma StepKeepsTrials(s: State, a: Action)
    requires SubSide(s) && TrialsOver(s) && Enabled(s, a)
    ensures TrialsOver(Step(s, a))
  {
    hide Step, SubSide, TrialOver;
    var s' := Step(s, a);
    forall j, x | 0 <= j < |s'.passes| && s'.passes[j].from == Sub.Trial && x in s'.passes[j].rest
      ensures TrialOver(s', x)
    {
      PassStep(s, a, j, x);
      if j >= |s.passes| {
        EndedTrial(s, x);
      }
      TrialStaysOver(s, a, x);
    }
    forall x | x in s'.db.subscriptions && s'.db.subscriptions[x].status == Sub.Expired
      ensures TrialOver(s', x)
    {
      ExpiredByPass(s, a, x);
      if StatusAt(s, x) != Sub.Expired {
        assert s.passes[a.j].rest[0] in s.passes[a.j].rest;
      }
      TrialStaysOver(s, a, x);
    }
  }

  lemma EndedTrial(s: State, x: nat)
    requires x in s.db.subscriptions && InBatch(s.db.subscriptions[x], Sub.Trial, s.clock)
    ensures TrialOver(s, x)
  {
  }

  /** In every run an expired subscription is one whose trial has ended. */
  lemma {:induction false} ExpiredOnlyAfterTrial(run: seq<State>, i: nat)
    requires IsRun(run) && i < |run|
    ensures TrialsOver(run[i])
    ensures forall x | x in run[i].db.subscriptions && run[i].db.subscriptions[x].status == Sub.Expired ::
      run[i].db.subscriptions[x].trialEnd.Some? && run[i].db.subscriptions[x].trialEnd.value < run[i].clock
  {
    hide Step, Enabled, SubSide;
    if i == 0 {
    } else {
      ExpiredOnlyAfterTrial(run, i - 1);
      RunKeepsSubSide(run, i - 1);
      assert Next(run[i - 1], run[i - 1 + 1]);
      var a :| Enabled(run[i - 1], a) && Step(run[i - 1], a) == run[i];
      StepKeepsTrials(run[i - 1], a);
    }
    assert forall x | x in run[i].db.subscriptions && run[i].db.subscriptions[x].status == Sub.Expired :: TrialOver(run[i], x);
  }
}
