/**
 Webhook deliveries against the life cycle of a subscription, along the runs of BillingRuns. A delivery
 reads the subscription inside its transaction and updates it later by id; others commit in between. The
 results say exactly what of the life cycle such writes can break, and which reads can be overtaken.
 */
module DeliveryRaces {
  import opened Wrappers
  import opened Billing
  import opened BillingRuns
  import opened SubscriptionHistory
  import opened PlanChanges
  import Sub = SubscriptionStatus

  // ---- What a read may still find at the write ----

  /** A status read that is past the trial and not terminal stays so; nothing is ever cancelled. */
  ghost predicate ReadOk(db: Db, d: Delivery) {
    d.pc.Writing? ==>
      && d.payment.Some? && Deliverable(db, d.payment.value)
      && d.pc.read.status != Sub.Cancelled
      && (Established(d.pc.read.status) ==>
            Established(db.subscriptions[db.payments[d.payment.value].subscription.value].status))
  }

  ghost predicate ReadsOk(s: State) {
    forall d | 0 <= d < |s.deliveries| :: ReadOk(s.db, s.deliveries[d])
  }

  /** How a step can change a delivery that is writing after it: it has just read, or was writing already. */
  lemma StepToWriting(s: State, a: Action, d: nat)
    requires Enabled(s, a) && d < |Step(s, a).deliveries| && Step(s, a).deliveries[d].pc.Writing?
    ensures d < |s.deliveries|
    ensures if a == ReadSubscription(d) then
        Step(s, a).db == s.db && s.deliveries[d].payment.Some? && Deliverable(s.db, s.deliveries[d].payment.value)
        && Step(s, a).deliveries[d] == s.deliveries[d].(pc := Writing(Found(s, d)))
      else Step(s, a).deliveries[d] == s.deliveries[d]
  {
    hide Resolve, ExpireIfPending, MoveIfStill, ChangePlan;
  }

  lemma StepKeepsReads(s: State, a: Action)
    requires PaySide(s) && SubSide(s) && Inv(s) && ReadsOk(s) && Enabled(s, a)
    ensures ReadsOk(Step(s, a))
  {
    hide Step, Enabled, PaySide, SubSide;
    var s' := Step(s, a);
    forall d | 0 <= d < |s'.deliveries| && s'.deliveries[d].pc.Writing?
      ensures ReadOk(s'.db, s'.deliveries[d])
    {
      StepToWriting(s, a, d);
      if a != ReadSubscription(d) {
        assert ReadOk(s.db, s.deliveries[d]);
        StepEvolves(s, a);
        StepLeads(s, a, s.db.payments[s.deliveries[d].payment.value].subscription.value);
      }
    }
  }

  lemma {:induction false} RunKeepsReads(run: seq<State>, i: nat)
    requires IsRun(run) && i < |run|
    ensures ReadsOk(run[i])
  {
    hide Step, Enabled, PaySide, SubSide, PlanChanges.Inv, ReadOk;
    if i == 0 {
    } else {
      RunKeepsReads(run, i - 1);
      RunKeepsPaySide(run, i - 1);
      RunKeepsSubSide(run, i - 1);
      RunKeepsInv(run, i - 1);
      assert Next(run[i - 1], run[i - 1 + 1]);
      var a :| Enabled(run[i - 1], a) && Step(run[i - 1], a) == run[i];
      StepKeepsReads(run[i - 1], a);
    }
  }

  // ---- The moves of a step ----

  predicate Permitted(from: Sub.Status, to: Sub.Status) {
    from == to || Sub.CanTransition(from, to)
  }

  /**
   The two overwrites that break the transition table: an expired subscription made active by a delivery
   that read it on trial, and a suspended one put past due by a delivery that read it active.
   */
  predicate Breaks(e: Event) {
    (e.from == Sub.Expired && e.to == Sub.Trial) || (e.from == Sub.Suspended && e.to == Sub.Active)
  }

  /** The delivery `d` commits an outcome over a status it did not read. */
  ghost predicate WritesLate(s: State, a: Action) {
    a.Commit? && Enabled(s, a) && Attempt(s, a.d).Applied? && Overtaken(s, a.d)
  }

  /** What a late write finds, and what it leaves: a permitted move unless it is one of the two. */
  lemma LateMove(s: State, d: nat)
    requires ReadsOk(s) && Inv(s) && Enabled(s, Commit(d)) && WritesLate(s, Commit(d))
    ensures var (x, e) := (s.db.payments[s.deliveries[d].payment.value].subscription.value, OverwrittenBy(s, d)[0]);
      && e == Event(x, Found(s, d).status, s.deliveries[d].pc.read.status, None, None)
      && Step(s, Commit(d)).overwritten == s.overwritten + [e]
      && x in s.db.subscriptions && StatusAt(s, x) == Found(s, d).status
      && (Permitted(StatusAt(s, x), StatusAt(Step(s, Commit(d)), x)) <==> !Breaks(e))
      && (StatusAt(s, x) == Sub.Expired ==> Breaks(e) && StatusAt(Step(s, Commit(d)), x) == Sub.Active)
      && forall y | y != x :: StatusAt(Step(s, Commit(d)), y) == StatusAt(s, y)
  {
    hide Resolve;
    var delivery := s.deliveries[d];
    var read, found := delivery.pc.read.status, Found(s, d).status;
    AppliedLogs(s.db, delivery.payment.value, delivery.notice.succeeded, delivery.pc.read, s.clock, s.clock + GRACE_PERIOD);
    assert ReadOk(s.db, delivery);
    assert Step(s, Commit(d)) == AfterCommit(s, d, Attempt(s, d));
    TableFacts();
  }

  /** The entries of the transition table between statuses that are not cancelled. */
  lemma TableFacts()
    ensures Sub.CanTransition(Sub.Trial, Sub.Active) && !Sub.CanTransition(Sub.Trial, Sub.PastDue)
    ensures Sub.CanTransition(Sub.Active, Sub.PastDue) && Sub.CanTransition(Sub.PastDue, Sub.Active)
    ensures Sub.CanTransition(Sub.Suspended, Sub.Active) && !Sub.CanTransition(Sub.Suspended, Sub.PastDue)
    ensures forall st :: !Sub.CanTransition(Sub.Expired, st) && !Sub.CanTransition(Sub.Cancelled, st)
  {
    assert Sub.AllowedTransitions(Sub.Trial)[0] == Sub.AllowedTransitions(Sub.PastDue)[0]
        == Sub.AllowedTransitions(Sub.Suspended)[0] == Sub.Active;
    assert Sub.AllowedTransitions(Sub.Active)[0] == Sub.PastDue;
  }

  /** Every other step takes permitted moves only, and writes over nothing. */
  lemma OtherMoves(s: State, a: Action, x: nat)
    requires SubSide(s) && Enabled(s, a) && !WritesLate(s, a)
    ensures Permitted(StatusAt(s, x), StatusAt(Step(s, a), x)) && Step(s, a).overwritten == s.overwritten
  {
    hide Resolve;
    if a.Commit? {
      OnTimeMove(s, a.d, x);
    } else if a.SwapStatus? {
      assert PassOk(s.db, s.passes[a.j]);
      JobTransitionAllowed(s.passes[a.j].from, s.passes[a.j].to);
    }
  }

  lemma OnTimeMove(s: State, d: nat, x: nat)
    requires Enabled(s, Commit(d)) && !WritesLate(s, Commit(d))
    ensures Permitted(StatusAt(s, x), StatusAt(Step(s, Commit(d)), x)) && Step(s, Commit(d)).overwritten == s.overwritten
  {
    hide Resolve;
    var delivery := s.deliveries[d];
    assert Step(s, Commit(d)) == AfterCommit(s, d, Attempt(s, d));
    if Attempt(s, d).Applied? {
      AppliedLogs(s.db, delivery.payment.value, delivery.notice.succeeded, delivery.pc.read, s.clock, s.clock + GRACE_PERIOD);
    }
  }

  // ---- Whole runs ----

  ghost predicate Broken(s: State, x: nat) {
    exists k | 0 <= k < |s.overwritten| :: s.overwritten[k].subscription == x && Breaks(s.overwritten[k])
  }

  /** One step: it is a permitted move of the subscription exactly when it adds no breaking overwrite of it. */
  lemma MoveExactlyWhen(s: State, a: Action, x: nat)
    requires SubSide(s) && ReadsOk(s) && Inv(s) && Enabled(s, a)
    ensures Permitted(StatusAt(s, x), StatusAt(Step(s, a), x)) && !Broken(s, x) <==> !Broken(Step(s, a), x)
    ensures StatusAt(s, x) == Sub.Expired && StatusAt(Step(s, a), x) != Sub.Expired ==> Broken(Step(s, a), x)
  {
    hide Step, Enabled, SubSide, ReadsOk, PlanChanges.Inv, Breaks;
    var s' := Step(s, a);
    if WritesLate(s, a) {
      LateMove(s, a.d);
      BrokenBy(s.overwritten, OverwrittenBy(s, a.d)[0], x);
      BrokenIs(s, x);
      BrokenIs(s', x);
    } else {
      OtherMoves(s, a, x);
      TableFacts();
    }
  }

  ghost predicate HasBreak(events: seq<Event>, x: nat) {
    exists k | 0 <= k < |events| :: events[k].subscription == x && Breaks(events[k])
  }

  lemma BrokenIs(s: State, x: nat)
    ensures Broken(s, x) <==> HasBreak(s.overwritten, x)
  {
  }

  lemma BrokenBy(events: seq<Event>, e: Event, x: nat)
    ensures HasBreak(events + [e], x) <==> HasBreak(events, x) || (e.subscription == x && Breaks(e))
  {
    if HasBreak(events, x) {
      var k :| 0 <= k < |events| && events[k].subscription == x && Breaks(events[k]);
      assert (events + [e])[k] == events[k];
    }
    if e.subscription == x && Breaks(e) {
      assert (events + [e])[|events|] == e;
    }
  }

  /** Up to a point of the run the status of the subscription takes permitted moves only. */
  ghost predicate FollowsTable(run: seq<State>, n: nat, x: nat)
    requires n < |run|
  {
    forall i | 0 <= i < n :: Permitted(StatusAt(run[i], x), StatusAt(run[i + 1], x))
  }

  /**
   A subscription follows the transition table along a run exactly when no delivery that read it on trial
   wrote over its expiry, and none that read it active wrote over its suspension.
   */
  lemma {:induction false} FollowsTableExactlyWhen(run: seq<State>, n: nat, x: nat)
    requires IsRun(run) && n < |run|
    ensures FollowsTable(run, n, x) <==> !Broken(run[n], x)
  {
    hide Step, Enabled, SubSide, ReadsOk, PlanChanges.Inv, Broken;
    if n == 0 {
      InitialUnbroken(x);
    } else {
      FollowsTableExactlyWhen(run, n - 1, x);
      RunKeepsSubSide(run, n - 1);
      RunKeepsReads(run, n - 1);
      RunKeepsInv(run, n - 1);
      assert Next(run[n - 1], run[n - 1 + 1]);
      var a :| Enabled(run[n - 1], a) && Step(run[n - 1], a) == run[n];
      MoveExactlyWhen(run[n - 1], a, x);
      assert FollowsTable(run, n, x) <==> FollowsTable(run, n - 1, x) && Permitted(StatusAt(run[n - 1], x), StatusAt(run[n], x));
    }
  }

  lemma InitialUnbroken(x: nat)
    ensures !Broken(Initial, x)
  {
  }

  /** The statuses of a subscription in the order a run goes through them, repeats left out. */
  function Statuses(run: seq<State>, x: nat): (path: seq<Sub.Status>)
    requires run != []
    ensures path != [] && path[|path| - 1] == StatusAt(run[|run| - 1], x)
  {
    var now := StatusAt(run[|run| - 1], x);
    if |run| == 1 then [now]
    else
      var path := Statuses(run[..|run| - 1], x);
      if path[|path| - 1] == now then path else path + [now]
  }

  lemma {:induction false} PathIsFollowing(run: seq<State>, x: nat)
    requires run != []
    ensures Sub.Path(Statuses(run, x)) <==> FollowsTable(run, |run| - 1, x)
  {
    var n := |run| - 1;
    if n > 0 {
      PathIsFollowing(run[..n], x);
      FollowsSnoc(run, x);
      if StatusAt(run[n - 1], x) != StatusAt(run[n], x) {
        PathSnoc(Statuses(run[..n], x), StatusAt(run[n], x));
      }
    }
  }

  lemma FollowsSnoc(run: seq<State>, x: nat)
    requires |run| > 1
    ensures var n := |run| - 1;
      FollowsTable(run, n, x) <==> FollowsTable(run[..n], n - 1, x) && Permitted(StatusAt(run[n - 1], x), StatusAt(run[n], x))
  {
    var n := |run| - 1;
    assert forall i | 0 <= i < n :: run[..n][i] == run[i];
    if FollowsTable(run, n, x) {
      assert Permitted(StatusAt(run[n - 1], x), StatusAt(run[n - 1 + 1], x));
    }
  }

  lemma PathSnoc(path: seq<Sub.Status>, st: Sub.Status)
    requires path != [] && path[|path| - 1] != st
    ensures Sub.Path(path + [st]) <==> Sub.Path(path) && Sub.CanTransition(path[|path| - 1], st)
  {
    var path' := path + [st];
    if Sub.Path(path') {
      assert Sub.CanTransition(path'[|path| - 1], path'[|path| - 1 + 1]);
      forall i | 0 <= i < |path| - 1
        ensures Sub.CanTransition(path[i], path[i + 1])
      {
        assert Sub.CanTransition(path'[i], path'[i + 1]);
      }
    }
  }

  lemma {:induction false} FromTrial(run: seq<State>, x: nat)
    requires run != [] && run[0] == Initial
    ensures Statuses(run, x)[0] == Sub.Trial
  {
    if |run| > 1 {
      FromTrial(run[..|run| - 1], x);
    }
  }

  /**
   Along any run the statuses of a subscription begin with the trial, and form a path in the transition
   table exactly when the run has neither of those two overwrites of it.
   */
  lemma StatusesFormPathExactlyWhen(run: seq<State>, x: nat)
    requires IsRun(run)
    ensures Statuses(run, x)[0] == Sub.Trial
    ensures Sub.Path(Statuses(run, x)) <==> !Broken(run[|run| - 1], x)
  {
    FromTrial(run, x);
    PathIsFollowing(run, x);
    FollowsTableExactlyWhen(run, |run| - 1, x);
  }

  /** A delivery that read the subscription on trial has written over its expiry. */
  ghost predicate Revived(s: State, x: nat) {
    exists k | 0 <= k < |s.overwritten| ::
      s.overwritten[k].subscription == x && s.overwritten[k].from == Sub.Expired
  }

  ghost predicate Absorbed(run: seq<State>, n: nat, x: nat)
    requires n < |run|
  {
    forall i | 0 <= i < n && Sub.Terminal(StatusAt(run[i], x)) :: StatusAt(run[i + 1], x) == StatusAt(run[i], x)
  }

  lemma RevivalStep(s: State, a: Action, x: nat)
    requires SubSide(s) && ReadsOk(s) && Inv(s) && Enabled(s, a)
    ensures Revived(Step(s, a), x) <==>
      Revived(s, x) || (Sub.Terminal(StatusAt(s, x)) && StatusAt(Step(s, a), x) != StatusAt(s, x))
  {
    hide Step, Enabled, SubSide, ReadsOk;
    var s' := Step(s, a);
    TableFacts();
    if WritesLate(s, a) {
      LateMove(s, a.d);
      var e := OverwrittenBy(s, a.d)[0];
      assert Revived(s', x) <==> Revived(s, x) || (e.subscription == x && e.from == Sub.Expired) by {
        assert forall k | 0 <= k < |s.overwritten| :: s'.overwritten[k] == s.overwritten[k];
        assert s'.overwritten[|s.overwritten|] == e;
      }
    } else {
      OtherMoves(s, a, x);
    }
  }

  /**
   A terminal subscription stays as it is along a run exactly when no delivery that read it on trial wrote
   after its expiry.
   */
  lemma {:induction false} AbsorbingExactlyWhen(run: seq<State>, n: nat, x: nat)
    requires IsRun(run) && n < |run|
    ensures Absorbed(run, n, x) <==> !Revived(run[n], x)
  {
    hide Step, Enabled, SubSide, ReadsOk, PlanChanges.Inv, Revived;
    if n == 0 {
      InitialUnrevived(x);
    } else {
      AbsorbingExactlyWhen(run, n - 1, x);
      RunKeepsSubSide(run, n - 1);
      RunKeepsReads(run, n - 1);
      RunKeepsInv(run, n - 1);
      assert Next(run[n - 1], run[n - 1 + 1]);
      var a :| Enabled(run[n - 1], a) && Step(run[n - 1], a) == run[n];
      RevivalStep(run[n - 1], a, x);
      assert Absorbed(run, n, x) <==>
        Absorbed(run, n - 1, x) && (Sub.Terminal(StatusAt(run[n - 1], x)) ==> StatusAt(run[n], x) == StatusAt(run[n - 1], x));
    }
  }

  lemma InitialUnrevived(x: nat)
    ensures !Revived(Initial, x)
  {
  }

  // ---- Which reads can be overtaken ----

  /** The delivery is due to write, would be applied, and finds another status than the one it read. */
  ghost predicate WritesLateNow(run: seq<State>, d: nat) {
    run != [] && WritesLate(Last(run), Commit(d))
  }

  ghost predicate RevivesNow(run: seq<State>, d: nat) {
    WritesLateNow(run, d) && Found(Last(run), d).status == Sub.Expired
  }

  /** The status read by delivery `d` in a run that goes on from its read. */
  lemma {:induction false} ReadStays(run: seq<State>, i: nat, j: nat, d: nat)
    requires IsRun(run) && i <= j < |run| && d < |run[i].deliveries| && run[i].deliveries[d].pc.Writing?
    ensures d < |run[j].deliveries|
    ensures run[j].deliveries[d].pc.Writing? ==> run[j].deliveries[d] == run[i].deliveries[d]
    ensures run[j].deliveries[d].pc.Writing? || run[j].deliveries[d].pc.Resolved? || run[j].deliveries[d].pc.Finished?
  {
    hide Step, Enabled;
    if i < j {
      ReadStays(run, i, j - 1, d);
      assert Next(run[j - 1], run[j - 1 + 1]);
      var a :| Enabled(run[j - 1], a) && Step(run[j - 1], a) == run[j];
      AfterReading(run[j - 1], a, d);
    }
  }

  lemma AfterReading(s: State, a: Action, d: nat)
    requires Enabled(s, a) && d < |s.deliveries|
    requires s.deliveries[d].pc.Writing? || s.deliveries[d].pc.Resolved? || s.deliveries[d].pc.Finished?
    ensures d < |Step(s, a).deliveries|
    ensures var pc := Step(s, a).deliveries[d].pc;
      (pc.Writing? || pc.Resolved? || pc.Finished?) && (pc.Writing? ==> Step(s, a).deliveries[d] == s.deliveries[d])
  {
    hide Resolve, Judge, ExpireIfPending, MoveIfStill, ChangePlan;
  }

  /** What a late write after a read says about that read. */
  lemma LateMeans(run: seq<State>, i: nat, d: nat)
    requires IsRun(run) && i < |run| && d < |run[i].deliveries| && run[i].deliveries[d].pc.Writing?
    requires run[i].deliveries[d].payment.Some? && run[i].deliveries[d].payment.value in run[i].db.payments
    requires WritesLateNow(run, d)
    ensures var (delivery, s) := (run[i].deliveries[d], Last(run));
      && s.deliveries[d] == delivery
      && run[i].db.payments[delivery.payment.value].status == Pending
      && Writes(delivery.notice.succeeded, delivery.pc.read.status)
      && Sub.CanTransition(delivery.pc.read.status, TargetStatus(delivery.notice.succeeded, delivery.pc.read.status).value)
      && (Found(s, d).status == Sub.Expired ==> delivery.pc.read.status == Sub.Trial && delivery.notice.succeeded)
  {
    var j := |run| - 1;
    ReadStays(run, i, j, d);
    ResolvedForGood(run, i, j, run[i].deliveries[d].payment.value);
    RunKeepsReads(run, j);
    assert ReadOk(run[j].db, run[j].deliveries[d]);
    TableFacts();
  }

  /** A success on a pending payment is about to read its subscription, on trial. */
  ghost predicate MayRevive(s: State, d: nat)
    requires Enabled(s, ReadSubscription(d))
  {
    && s.db.payments[s.deliveries[d].payment.value].status == Pending
    && s.deliveries[d].notice.succeeded && Found(s, d).status == Sub.Trial
  }

  /** It reads the trial, and the trial runs out before it writes. */
  lemma TrialReadRevives(run: seq<State>, d: nat) returns (run': seq<State>)
    requires IsRun(run) && Enabled(Last(run), ReadSubscription(d)) && MayRevive(Last(run), d)
    ensures IsRun(run') && run + [Step(Last(run), ReadSubscription(d))] <= run' && RevivesNow(run', d)
    ensures var (s, s') := (Last(run), Last(run'));
      var x := s.db.payments[s.deliveries[d].payment.value].subscription.value;
      && s'.db.events == s.db.events && s'.db.payments == s.db.payments
      && s'.deliveries[d] == s.deliveries[d].(pc := Writing(Found(s, d)))
      && s'.passes != [] && s'.passes[|s'.passes| - 1].owed == Some(Event(x, Sub.Trial, Sub.Expired, None, None))
  {
    hide Resolve;
    RunKeepsInv(run, |run| - 1);
    var x := Last(run).db.payments[Last(run).deliveries[d].payment.value].subscription.value;
    var read := Extend(run, ReadSubscription(d));
    run' := TrialRunsOut(read, x);
    TrialReadApplies(Last(run'), d);
  }

  lemma TrialReadApplies(s: State, d: nat)
    requires Enabled(s, Commit(d)) && s.db.payments[s.deliveries[d].payment.value].status == Pending
    requires s.deliveries[d].pc.read.status == Sub.Trial && s.deliveries[d].notice.succeeded
    ensures Attempt(s, d).Applied?
  {
    TableFacts();
  }

  /**
   Whether a delivery can still make an expired subscription active is settled when it reads: exactly a
   success on a pending payment that reads the trial can.
   */
  lemma ReviveExactlyWhen(run: seq<State>, d: nat)
    requires IsRun(run) && Enabled(Last(run), ReadSubscription(d))
    ensures (exists run': seq<State> | IsRun(run') && run + [Step(Last(run), ReadSubscription(d))] <= run' :: RevivesNow(run', d))
       <==> MayRevive(Last(run), d)
  {
    var read := run + [Step(Last(run), ReadSubscription(d))];
    if run': seq<State> :| IsRun(run') && read <= run' && RevivesNow(run', d) {
      assert run'[|run|] == read[|run|];
      LateMeans(run', |run|, d);
    }
    if MayRevive(Last(run), d) {
      var run' := TrialReadRevives(run, d);
      assert IsRun(run') && read <= run' && RevivesNow(run', d);
    }
  }

  /**
   Two holes can hide each other: when the job loses the event of an expiry that a delivery then writes
   over, the log tells a trial that became active, and balances.
   */
  lemma LateWriteHidesLoss(run: seq<State>, d: nat) returns (run': seq<State>)
    requires IsRun(run) && Enabled(Last(run), ReadSubscription(d)) && MayRevive(Last(run), d)
    requires LogBalances(Last(run), Last(run).db.payments[Last(run).deliveries[d].payment.value].subscription.value)
    ensures IsRun(run') && run <= run'
    ensures var x := Last(run).db.payments[Last(run).deliveries[d].payment.value].subscription.value;
      Mentions(Last(run').lost, x) && Revived(Last(run'), x) && LogBalances(Last(run'), x)
  {
    hide Flow, Resolve, Step;
    var x := Last(run).db.payments[Last(run).deliveries[d].payment.value].subscription.value;
    var late := TrialReadRevives(run, d);
    var lost := LoseExpiry(late, d);
    run' := Extend(lost, Commit(d));
    CommitRevives(lost, d);
    assert Last(run').lost[|Last(late).lost|].subscription == x;
    StoryBalances(Last(run), Last(run'), x);
  }

  /** A log that balanced on trial, and then tells a trial that became active. */
  lemma StoryBalances(s: State, s': State, x: nat)
    requires LogBalances(s, x) && StatusAt(s, x) == Sub.Trial && StatusAt(s', x) == Sub.Active
    requires |s'.db.events| == |s.db.events| + 1 && s.db.events <= s'.db.events
    requires var e := s'.db.events[|s.db.events|]; e.subscription == x && e.from == Sub.Trial && e.to == Sub.Active
    ensures LogBalances(s', x)
  {
    hide Flow;
    assert s'.db.events == s.db.events + [s'.db.events[|s.db.events|]];
    forall st
      ensures LogError(s', x, st) == 0
    {
      assert LogError(s, x, st) == 0;
      FlowSnoc(s.db.events, s'.db.events[|s.db.events|], x, st);
    }
  }

  /** The last lifecycle pass loses the event it owes, while the delivery is still to write. */
  lemma LoseExpiry(run: seq<State>, d: nat) returns (run': seq<State>)
    requires IsRun(run) && RevivesNow(run, d)
    requires Last(run).passes != [] && Last(run).passes[|Last(run).passes| - 1].owed.Some?
    ensures IsRun(run') && run <= run' && RevivesNow(run', d) && Last(run').db == Last(run).db
    ensures Last(run').deliveries == Last(run).deliveries
    ensures Last(run').lost == Last(run).lost + [Last(run).passes[|Last(run).passes| - 1].owed.value]
  {
    hide Resolve;
    run' := Extend(run, WriteEvent(|Last(run).passes| - 1, false));
  }

  lemma CommitRevives(run: seq<State>, d: nat)
    requires RevivesNow(run, d)
    ensures var (s, s') := (Last(run), Step(Last(run), Commit(d)));
      var (delivery, x) := (s.deliveries[d], s.db.payments[s.deliveries[d].payment.value].subscription.value);
      && x in s'.db.subscriptions && Revived(s', x) && s'.lost == s.lost
      && s'.db.subscriptions[x].status == TargetStatus(delivery.notice.succeeded, delivery.pc.read.status).value
      && s'.db.events == s.db.events + [Event(x, delivery.pc.read.status, s'.db.subscriptions[x].status, Some(delivery.pc.read.plan), Some(delivery.pc.read.plan))]
  {
    hide Resolve;
    var s, delivery := Last(run), Last(run).deliveries[d];
    assert Step(s, Commit(d)) == AfterCommit(s, d, Attempt(s, d));
    AppliedLogs(s.db, delivery.payment.value, delivery.notice.succeeded, delivery.pc.read, s.clock, s.clock + GRACE_PERIOD);
    assert Step(s, Commit(d)).overwritten[|s.overwritten|] == OverwrittenBy(s, d)[0];
  }

  // ---- Any read that leads to a write can be overtaken ----

  lemma {:induction false} Above(keys: set<nat>) returns (m: nat)
    ensures forall k | k in keys :: k < m
  {
    if keys == {} {
      m := 0;
    } else {
      var k :| k in keys;
      var rest := Above(keys - {k});
      assert forall j | j in keys :: j == k || j in keys - {k};
      m := if rest > k then rest else k + 1;
    }
  }

  lemma FreshPayment(db: Db) returns (p: nat, reference: string)
    ensures p !in db.payments && forall q | q in db.payments :: db.payments[q].reference != reference
  {
    p := Above(db.payments.Keys);
    var lengths := set q | q in db.payments :: |db.payments[q].reference|;
    var n := Above(lengths);
    assert forall q | q in db.payments :: |db.payments[q].reference| in lengths;
    reference := seq(n, _ => 'r');
  }

  /** Another payment of the same subscription, and the notice of its outcome, up to the read of the subscription. */
  lemma RivalArrives(run: seq<State>, x: nat, succeeded: bool) returns (run': seq<State>, p: nat)
    requires IsRun(run) && x in Last(run).db.subscriptions
    ensures IsRun(run') && run <= run' && p !in Last(run).db.payments
    ensures var (s, s') := (Last(run), Last(run'));
      && s'.db == s.db.(payments := s'.db.payments) && p in s'.db.payments && s'.db.payments == s.db.payments[p := s'.db.payments[p]]
      && s'.db.payments[p].status == Pending && s'.db.payments[p].subscription == Some(x)
      && |s'.deliveries| == |s.deliveries| + 1 && s'.deliveries[..|s.deliveries|] == s.deliveries
      && s'.deliveries[|s.deliveries|].pc == Writing(s.db.subscriptions[x])
      && s'.deliveries[|s.deliveries|].payment == Some(p) && s'.deliveries[|s.deliveries|].notice.succeeded == succeeded
      && s'.clock == s.clock
  {
    var e, reference := |Last(run).deliveries|, "";
    p, reference := FreshPayment(Last(run).db);
    run' := Extend(run, OpenPayment(p, Payment(reference, Some(x), 1, "XOF", None, Pending, None, None)));
    run' := Extend(run', Arrive(Notice(reference, succeeded, 1, "XOF")));
    run' := RivalReads(run', e, p);
  }

  lemma RivalReads(run: seq<State>, e: nat, p: nat) returns (run': seq<State>)
    requires IsRun(run) && e < |Last(run).deliveries| && Deliverable(Last(run).db, p)
    requires var (s, payment) := (Last(run), Last(run).db.payments[p]);
      s.deliveries[e] == Delivery(Notice(payment.reference, s.deliveries[e].notice.succeeded, payment.amount, payment.currency), None, Received, false, false, 0)
      && payment.status == Pending && payment.expiresAt.None?
    ensures IsRun(run') && run <= run'
    ensures Last(run') == Last(run).(deliveries := Last(run).deliveries[e :=
      Last(run).deliveries[e].(payment := Some(p), readAt := Last(run).clock, pc := Writing(Last(run).db.subscriptions[Last(run).db.payments[p].subscription.value]))])
  {
    run' := Extend(run, ReadPayment(e, Some(p)));
    run' := Extend(run', ReadSubscription(e));
  }

  /** A delivery that has just read the subscription commits its outcome. */
  lemma RivalCommits(run: seq<State>, e: nat, p: nat, x: nat) returns (run': seq<State>)
    requires IsRun(run) && e < |Last(run).deliveries| && Deliverable(Last(run).db, p)
    requires var (s, delivery) := (Last(run), Last(run).deliveries[e]);
      && s.db.payments[p].status == Pending && s.db.payments[p].subscription == Some(x)
      && delivery.payment == Some(p) && delivery.pc == Writing(s.db.subscriptions[x])
      && Writes(delivery.notice.succeeded, delivery.pc.read.status)
      && Sub.CanTransition(delivery.pc.read.status, TargetStatus(delivery.notice.succeeded, delivery.pc.read.status).value)
    ensures IsRun(run') && run <= run'
    ensures var (s, s') := (Last(run), Last(run'));
      && x in s'.db.subscriptions
      && s'.db.subscriptions[x].status == TargetStatus(s.deliveries[e].notice.succeeded, s.db.subscriptions[x].status).value
      && s'.db.subscriptions.Keys == s.db.subscriptions.Keys
      && (forall q | q in s.db.payments && q != p :: q in s'.db.payments && s'.db.payments[q] == s.db.payments[q])
      && |s'.deliveries| == |s.deliveries| && forall c | 0 <= c < |s.deliveries| && c != e :: s'.deliveries[c] == s.deliveries[c]
  {
    var s, delivery := Last(run), Last(run).deliveries[e];
    run' := Extend(run, Commit(e));
    AppliedLogs(s.db, p, delivery.notice.succeeded, delivery.pc.read, s.clock, s.clock + GRACE_PERIOD);
    AppliedPays(s.db, p, delivery.notice.succeeded, delivery.pc.read, s.clock, s.clock + GRACE_PERIOD);
  }

  /** A second delivery with the same outcome overtakes the first between its read and its write. */
  lemma Overtake(run: seq<State>, d: nat) returns (run': seq<State>)
    requires IsRun(run) && Enabled(Last(run), ReadSubscription(d)) && MayWrite(Last(run), d)
    ensures IsRun(run') && run + [Step(Last(run), ReadSubscription(d))] <= run' && WritesLateNow(run', d)
  {
    hide Resolve;
    var p, succeeded := Last(run).deliveries[d].payment.value, Last(run).deliveries[d].notice.succeeded;
    var x, e := Last(run).db.payments[p].subscription.value, |Last(run).deliveries|;
    var q: nat;
    run' := Extend(run, ReadSubscription(d));
    run', q := RivalArrives(run', x, succeeded);
    run' := RivalCommits(run', e, q, x);
    StillApplies(Last(run'), d);
  }

  lemma StillApplies(s: State, d: nat)
    requires Enabled(s, Commit(d)) && s.db.payments[s.deliveries[d].payment.value].status == Pending
    requires var (succeeded, read) := (s.deliveries[d].notice.succeeded, s.deliveries[d].pc.read.status);
      Writes(succeeded, read) && Sub.CanTransition(read, TargetStatus(succeeded, read).value) && Found(s, d).status != read
    ensures WritesLate(s, Commit(d))
  {
  }

  /** The delivery would win its payment and write another status than it is about to read. */
  ghost predicate MayWrite(s: State, d: nat)
    requires Enabled(s, ReadSubscription(d))
  {
    var (succeeded, st) := (s.deliveries[d].notice.succeeded, Found(s, d).status);
    && s.db.payments[s.deliveries[d].payment.value].status == Pending
    && Writes(succeeded, st) && Sub.CanTransition(st, TargetStatus(succeeded, st).value)
  }

  /**
   Whether a read can be overtaken is settled by what it reads: exactly those that lead to the write of a
   status can, none excepted.
   */
  lemma OvertakenExactlyWhen(run: seq<State>, d: nat)
    requires IsRun(run) && Enabled(Last(run), ReadSubscription(d))
    ensures (exists run': seq<State> | IsRun(run') && run + [Step(Last(run), ReadSubscription(d))] <= run' :: WritesLateNow(run', d))
       <==> MayWrite(Last(run), d)
  {
    var read := run + [Step(Last(run), ReadSubscription(d))];
    if run': seq<State> :| IsRun(run') && read <= run' && WritesLateNow(run', d) {
      assert run'[|run|] == read[|run|];
      LateMeans(run', |run|, d);
    }
    if MayWrite(Last(run), d) {
      var run' := Overtake(run, d);
      assert IsRun(run') && read <= run' && WritesLateNow(run', d);
    }
  }
}
