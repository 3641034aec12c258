/**
 The date of a payment, along the runs of BillingRuns: a payment past it is never resolved by a delivery
 that read it then, and none expires before it.
 */
module PaymentDates {
  import opened Wrappers
  import opened Billing
  import opened BillingRuns

  /** Strictly past its date; a payment without one never is. */
  predicate IsPast(expiresAt: Option<nat>, now: nat) {
    match expiresAt
    case None => false
    case Some(date) => date < now
  }

  /** What a delivery under way, or one that has committed, knows of the date of its payment. */
  ghost predicate DatesOk(db: Db, d: Delivery) {
    d.payment.Some? && d.payment.value in db.payments ==>
      && (d.overdue ==> IsPast(db.payments[d.payment.value].expiresAt, d.readAt))
      && (d.pc.Committing? || d.pc.Writing? || d.committed ==> !IsPast(db.payments[d.payment.value].expiresAt, d.readAt))
  }

  ghost predicate Dated(s: State) {
    && (forall d | 0 <= d < |s.deliveries| :: DatesOk(s.db, s.deliveries[d]) && s.deliveries[d].readAt <= s.clock)
    && (forall p | p in s.db.payments && s.db.payments[p].status == Expired :: IsPast(s.db.payments[p].expiresAt, s.clock))
  }

  /** The outer read tells overdue payments from the others. */
  lemma ReadStep(s: State, d: nat, found: Option<nat>)
    requires PaySide(s) && Enabled(s, ReadPayment(d, found)) && s.deliveries[d].readAt <= s.clock
    ensures var delivery := Step(s, ReadPayment(d, found)).deliveries[d];
      && DatesOk(s.db, delivery) && delivery.readAt <= s.clock
      && (delivery.payment.Some? ==> delivery.payment.value in s.db.payments)
  {
    hide PaymentsOk, OneResolver, InvoicesOk;
    assert DeliveryOk(s.db, s.deliveries[d]);
  }

  /** Later steps keep payment, overdue mark and time of the read, and commit only what was writing. */
  lemma LaterStep(s: State, a: Action, d: nat)
    requires Enabled(s, a) && d < |s.deliveries| && !(a.ReadPayment? && a.d == d)
    ensures d < |Step(s, a).deliveries|
    ensures var (before, after) := (s.deliveries[d], Step(s, a).deliveries[d]);
      && after.payment == before.payment && after.overdue == before.overdue && after.readAt == before.readAt
      && (after.pc.Committing? ==> before.pc.Committing? || before.pc.ReReading?)
      && (after.pc.Writing? ==> before.pc.Writing? || before.pc.Committing?)
      && (after.committed ==> before.committed || before.pc.Writing?)
      && (before.pc.ReReading? && after.pc.Committing? ==>
            before.payment.Some? && before.payment.value in s.db.payments && s.db.payments[before.payment.value].status == Pending)
  {
    hide Resolve, ExpireIfPending, MoveIfStill, ChangePlan;
  }

  lemma DeliveryStep(s: State, a: Action, d: nat)
    requires PaySide(s) && Enabled(s, a) && d < |s.deliveries| && DatesOk(s.db, s.deliveries[d]) && s.deliveries[d].readAt <= s.clock
    ensures d < |Step(s, a).deliveries|
    ensures DatesOk(s.db, Step(s, a).deliveries[d]) && Step(s, a).deliveries[d].readAt <= s.clock
    ensures Step(s, a).deliveries[d].payment.Some? ==> Step(s, a).deliveries[d].payment.value in s.db.payments
  {
    hide Step, PaymentsOk, OneResolver, InvoicesOk;
    if a.ReadPayment? && a.d == d {
      ReadStep(s, d, a.found);
      DeliveryCount(s, a);
    } else {
      assert DeliveryOk(s.db, s.deliveries[d]);
      LaterStep(s, a, d);
    }
  }

  lemma DeliveryCount(s: State, a: Action)
    requires Enabled(s, a)
    ensures |s.deliveries| <= |Step(s, a).deliveries|
  {
    hide Resolve, ExpireIfPending, MoveIfStill, ChangePlan, Judge;
  }

  lemma NewDeliveries(s: State, a: Action, d: nat)
    requires Enabled(s, a) && |s.deliveries| <= d < |Step(s, a).deliveries|
    ensures Step(s, a).deliveries[d].payment.None? && Step(s, a).deliveries[d].readAt <= Step(s, a).clock
  {
  }

  lemma SwapExpires(s: State, d: nat, p: nat)
    requires PaySide(s) && Dated(s) && Enabled(s, SwapExpired(d)) && p in Step(s, SwapExpired(d)).db.payments
    requires Step(s, SwapExpired(d)).db.payments[p].status == Expired
    ensures p in s.db.payments && IsPast(s.db.payments[p].expiresAt, s.clock)
  {
    assert DeliveryOk(s.db, s.deliveries[d]) && DatesOk(s.db, s.deliveries[d]);
  }

  lemma CommitExpiresNone(s: State, d: nat, p: nat)
    requires PaySide(s) && Dated(s) && Enabled(s, Commit(d)) && p in Step(s, Commit(d)).db.payments
    requires Step(s, Commit(d)).db.payments[p].status == Expired
    ensures p in s.db.payments && s.db.payments[p].status == Expired
  {
    hide Resolve;
    var delivery := s.deliveries[d];
    assert Step(s, Commit(d)) == AfterCommit(s, d, Attempt(s, d));
    if Attempt(s, d).Applied? {
      AppliedPays(s.db, delivery.payment.value, delivery.notice.succeeded, delivery.pc.read, s.clock, s.clock + GRACE_PERIOD);
    }
  }

  /** A payment is expired after a step only if it was, or is past its date. */
  lemma ExpiryStep(s: State, a: Action, p: nat)
    requires PaySide(s) && Dated(s) && Enabled(s, a)
    requires p in Step(s, a).db.payments && Step(s, a).db.payments[p].status == Expired
    ensures p in s.db.payments && IsPast(s.db.payments[p].expiresAt, s.clock)
  {
    hide Resolve, Judge;
    if !TouchesPayments(a) {
      OtherSteps(s, a);
    } else {
      match a
      case SwapExpired(d) => SwapExpires(s, d, p);
      case Commit(d) => CommitExpiresNone(s, d, p);
      case _ =>
    }
  }

  lemma StepKeepsDates(s: State, a: Action)
    requires PaySide(s) && Dated(s) && Enabled(s, a)
    ensures Dated(Step(s, a))
  {
    hide Step, Enabled, PaySide;
    var s' := Step(s, a);
    StepEvolves(s, a);
    ClockStep(s, a);
    forall d | 0 <= d < |s'.deliveries|
      ensures DatesOk(s'.db, s'.deliveries[d]) && s'.deliveries[d].readAt <= s'.clock
    {
      if d < |s.deliveries| {
        DeliveryStep(s, a, d);
      } else {
        NewDeliveries(s, a, d);
      }
    }
    forall p | p in s'.db.payments && s'.db.payments[p].status == Expired
      ensures IsPast(s'.db.payments[p].expiresAt, s'.clock)
    {
      ExpiryStep(s, a, p);
    }
  }

  lemma ClockStep(s: State, a: Action)
    requires Enabled(s, a)
    ensures s.clock <= Step(s, a).clock
  {
  }

  lemma {:induction false} RunKeepsDates(run: seq<State>, i: nat)
    requires IsRun(run) && i < |run|
    ensures Dated(run[i])
  {
    hide Step, Enabled, PaySide, Dated;
    if i == 0 {
      InitiallyDated();
    } else {
      RunKeepsDates(run, i - 1);
      RunKeepsPaySide(run, i - 1);
      assert Next(run[i - 1], run[i - 1 + 1]);
      var a :| Enabled(run[i - 1], a) && Step(run[i - 1], a) == run[i];
      StepKeepsDates(run[i - 1], a);
    }
  }

  lemma InitiallyDated()
    ensures Dated(Initial)
  {
  }

  // ---- What every run guarantees ----

  /** The time of a delivery's outer read is noted as it reads. */
  lemma ReadIsDated(s: State, d: nat, p: nat)
    requires Enabled(s, ReadPayment(d, Some(p)))
    ensures Step(s, ReadPayment(d, Some(p))).deliveries[d].readAt == s.clock
    ensures Step(s, ReadPayment(d, Some(p))).deliveries[d].payment == Some(p)
    ensures Step(s, ReadPayment(d, Some(p))).deliveries[d].pc == Expiring <==>
      s.db.payments[p].status == Pending && s.db.payments[p].expiresAt.Some? && s.db.payments[p].expiresAt.value < s.clock
  {
  }

  /** It commits an outcome only if the payment had no date, or had not passed it, when it was read. */
  lemma CommitsOnlyInDate(run: seq<State>, i: nat, d: nat)
    requires IsRun(run) && i < |run| && d < |run[i].deliveries| && run[i].deliveries[d].committed
    ensures var (s, delivery) := (run[i], run[i].deliveries[d]);
      && delivery.payment.Some? && delivery.payment.value in s.db.payments && delivery.readAt <= s.clock
      && var expiresAt := s.db.payments[delivery.payment.value].expiresAt;
         expiresAt.None? || expiresAt.value >= delivery.readAt
  {
    RunKeepsDates(run, i);
    RunKeepsPaySide(run, i);
    assert DeliveryOk(run[i].db, run[i].deliveries[d]) && DatesOk(run[i].db, run[i].deliveries[d]);
  }

  /** In every run a payment is expired only if it has a date and that date is past. */
  lemma ExpiredOnlyPastDate(run: seq<State>, i: nat, p: nat)
    requires IsRun(run) && i < |run| && p in run[i].db.payments && run[i].db.payments[p].status == Expired
    ensures run[i].db.payments[p].expiresAt.Some? && run[i].db.payments[p].expiresAt.value < run[i].clock
  {
    RunKeepsDates(run, i);
  }

  /** The hourly purge is due on a payment exactly when that is past its date. */
  lemma PurgeDueExactlyWhen(s: State, p: nat)
    requires p in s.db.payments
    ensures Enabled(s, PurgePayment(p)) <==> s.db.payments[p].expiresAt.Some? && s.db.payments[p].expiresAt.value < s.clock
  {
  }

  lemma ReadOnce(s: State, a: Action, d: nat)
    requires Enabled(s, a) && d < |s.deliveries| && !s.deliveries[d].pc.Received?
    ensures d < |Step(s, a).deliveries| && !Step(s, a).deliveries[d].pc.Received?
    ensures Step(s, a).deliveries[d].readAt == s.deliveries[d].readAt && Step(s, a).deliveries[d].payment == s.deliveries[d].payment
  {
    hide Resolve, ExpireIfPending, MoveIfStill, ChangePlan, PastDate;
  }

  lemma {:induction false} ReadStaysDated(run: seq<State>, i: nat, j: nat, d: nat)
    requires IsRun(run) && i <= j < |run| && d < |run[i].deliveries| && !run[i].deliveries[d].pc.Received?
    ensures d < |run[j].deliveries| && !run[j].deliveries[d].pc.Received?
    ensures run[j].deliveries[d].readAt == run[i].deliveries[d].readAt && run[j].deliveries[d].payment == run[i].deliveries[d].payment
  {
    hide Step, Enabled;
    if i < j {
      ReadStaysDated(run, i, j - 1, d);
      assert Next(run[j - 1], run[j - 1 + 1]);
      var a :| Enabled(run[j - 1], a) && Step(run[j - 1], a) == run[j];
      ReadOnce(run[j - 1], a, d);
    }
  }

  /** A delivery that reads a payment past its date commits at no later point of the run. */
  lemma OverdueReadNeverCommits(run: seq<State>, i: nat, j: nat, d: nat, p: nat)
    requires IsRun(run) && i < j < |run| && Enabled(run[i], ReadPayment(d, Some(p))) && run[i + 1] == Step(run[i], ReadPayment(d, Some(p)))
    requires run[i].db.payments[p].expiresAt.Some? && run[i].db.payments[p].expiresAt.value < run[i].clock
    ensures d < |run[j].deliveries| && !run[j].deliveries[d].committed
  {
    ReadLeavesReceived(run[i], d, p);
    ReadIsDated(run[i], d, p);
    ReadStaysDated(run, i + 1, j, d);
    ResolvedForGood(run, i, j, p);
    if run[j].deliveries[d].committed {
      CommitsOnlyInDate(run, j, d);
    }
  }

  lemma ReadLeavesReceived(s: State, d: nat, p: nat)
    requires Enabled(s, ReadPayment(d, Some(p)))
    ensures d < |Step(s, ReadPayment(d, Some(p))).deliveries| && !Step(s, ReadPayment(d, Some(p))).deliveries[d].pc.Received?
  {
  }
}
