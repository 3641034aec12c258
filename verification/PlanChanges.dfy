/**
 Plan changes against the life cycle of a subscription, along the runs of BillingRuns. The guard of a
 change looks at a read made outside its transaction; the results say exactly when the write that
 follows can still find the subscription in a terminal status.
 */
module PlanChanges {
  import opened Wrappers
  import opened Billing
  import opened BillingRuns
  import opened SubscriptionHistory
  import Sub = SubscriptionStatus

  /** In use and past its trial: from here no step leads to a terminal status. */
  predicate Established(st: Sub.Status) {
    st == Sub.Active || st == Sub.PastDue || st == Sub.Suspended
  }

  ghost predicate SubscriptionsOk(db: Db) {
    forall x | x in db.subscriptions :: db.subscriptions[x].status != Sub.Cancelled && db.subscriptions[x].trialEnd.Some?
  }

  ghost predicate ChangeOk(db: Db, change: PlanChange) {
    && change.subscription in db.subscriptions
    && (change.read.status == Sub.Trial || (Established(change.read.status) && Established(db.subscriptions[change.subscription].status)))
  }

  ghost predicate Inv(s: State) {
    SubscriptionsOk(s.db) && forall c | 0 <= c < |s.planChanges| :: ChangeOk(s.db, s.planChanges[c])
  }

  /** Where one step can take a subscription: nobody cancels, and only a trial expires. */
  lemma StepLeads(s: State, a: Action, x: nat)
    requires SubSide(s) && Enabled(s, a) && x in s.db.subscriptions
    ensures var s' := Step(s, a);
      x in s'.db.subscriptions && s'.db.subscriptions[x].trialEnd == s.db.subscriptions[x].trialEnd
      && var (before, after) := (s.db.subscriptions[x].status, s'.db.subscriptions[x].status);
         after == before || after == Sub.Active || after == Sub.PastDue
         || (before == Sub.Trial && after == Sub.Expired) || (before == Sub.PastDue && after == Sub.Suspended)
  {
    if a.SwapStatus? {
      assert PassOk(s.db, s.passes[a.j]);
    }
  }

  /** The subscriptions and plan changes that a step can add. */
  lemma StepAdds(s: State, a: Action)
    requires Enabled(s, a)
    ensures var s' := Step(s, a);
      && (forall x | x in s'.db.subscriptions && x !in s.db.subscriptions ::
            s'.db.subscriptions[x].status == Sub.Trial && s'.db.subscriptions[x].trialEnd.Some?)
      && |s.planChanges| <= |s'.planChanges| <= |s.planChanges| + 1
      && (forall c | 0 <= c < |s.planChanges| :: s'.planChanges[c] == s.planChanges[c].(written := s'.planChanges[c].written))
      && (|s'.planChanges| > |s.planChanges| ==>
            var change := s'.planChanges[|s.planChanges|];
            && change.subscription in s.db.subscriptions && change.read == s.db.subscriptions[change.subscription]
            && !Sub.Terminal(change.read.status) && s'.db == s.db)
  {
  }

  lemma StepKeepsInv(s: State, a: Action)
    requires Inv(s) && SubSide(s) && Enabled(s, a)
    ensures Inv(Step(s, a))
  {
    hide Step, Enabled, SubSide;
    var s' := Step(s, a);
    StepAdds(s, a);
    forall x | x in s'.db.subscriptions
      ensures s'.db.subscriptions[x].status != Sub.Cancelled && s'.db.subscriptions[x].trialEnd.Some?
    {
      if x in s.db.subscriptions {
        StepLeads(s, a, x);
      }
    }
    forall c | 0 <= c < |s'.planChanges|
      ensures ChangeOk(s'.db, s'.planChanges[c])
    {
      if c < |s.planChanges| {
        assert ChangeOk(s.db, s.planChanges[c]);
        StepLeads(s, a, s.planChanges[c].subscription);
      }
    }
  }

  lemma {:induction false} RunKeepsInv(run: seq<State>, i: nat)
    requires IsRun(run) && i < |run|
    ensures Inv(run[i])
  {
    if i == 0 {
    } else {
      RunKeepsInv(run, i - 1);
      RunKeepsSubSide(run, i - 1);
      assert Next(run[i - 1], run[i - 1 + 1]);
      var a :| Enabled(run[i - 1], a) && Step(run[i - 1], a) == run[i];
      StepKeepsInv(run[i - 1], a);
    }
  }

  // ---- What every run guarantees ----

  /** Nothing in the service ever cancels a subscription: of the two terminal statuses only expiry is reached. */
  lemma NeverCancelled(run: seq<State>, i: nat, x: nat)
    requires IsRun(run) && i < |run| && x in run[i].db.subscriptions
    ensures run[i].db.subscriptions[x].status != Sub.Cancelled
  {
    RunKeepsInv(run, i);
  }

  /** A change that did not read its subscription on trial never meets it in a terminal status. */
  lemma TerminalOnlyIfReadOnTrial(run: seq<State>, i: nat, c: nat)
    requires IsRun(run) && i < |run| && c < |run[i].planChanges|
    ensures var change := run[i].planChanges[c];
      Sub.Terminal(StatusAt(run[i], change.subscription)) ==>
      change.read.status == Sub.Trial && StatusAt(run[i], change.subscription) == Sub.Expired
  {
    RunKeepsInv(run, i);
    assert ChangeOk(run[i].db, run[i].planChanges[c]);
  }

  lemma {:induction false} ChangesStay(run: seq<State>, i: nat, j: nat, c: nat)
    requires IsRun(run) && i <= j < |run| && c < |run[i].planChanges|
    ensures c < |run[j].planChanges| && run[j].planChanges[c] == run[i].planChanges[c].(written := run[j].planChanges[c].written)
  {
    hide Step, Enabled;
    if i == j {
    } else {
      ChangesStay(run, i, j - 1, c);
      assert Next(run[j - 1], run[j - 1 + 1]);
      var a :| Enabled(run[j - 1], a) && Step(run[j - 1], a) == run[j];
      StepAdds(run[j - 1], a);
    }
  }

  /** At the end of the run the write of change `c` is due, and its subscription is in a terminal status. */
  ghost predicate WriteMeetsTerminal(run: seq<State>, c: nat) {
    run != [] && Enabled(Last(run), WritePlan(c))
    && Sub.Terminal(StatusAt(Last(run), Last(run).planChanges[c].subscription))
  }

  /** On trial: time passes, the lifecycle job comes by, and only then does the change write. */
  lemma TrialExpiresBeforeWrite(run: seq<State>, x: nat, newPlan: nat) returns (run': seq<State>)
    requires IsRun(run) && Enabled(Last(run), ReadPlan(x, newPlan)) && StatusAt(Last(run), x) == Sub.Trial
    ensures IsRun(run') && run + [Step(Last(run), ReadPlan(x, newPlan))] <= run'
    ensures WriteMeetsTerminal(run', |Last(run).planChanges|)
  {
    RunKeepsInv(run, |run| - 1);
    var late := Extend(run, ReadPlan(x, newPlan));
    run' := TrialRunsOut(late, x);
  }

  /** Time passes until a trial is past its date, and a lifecycle pass comes by; nothing else happens. */
  lemma TrialRunsOut(run: seq<State>, x: nat) returns (run': seq<State>)
    requires IsRun(run) && StatusAt(Last(run), x) == Sub.Trial
    requires x in Last(run).db.subscriptions && Last(run).db.subscriptions[x].trialEnd.Some?
    ensures IsRun(run') && run <= run' && StatusAt(Last(run'), x) == Sub.Expired
    ensures Last(run').planChanges == Last(run).planChanges && Last(run').deliveries == Last(run).deliveries
    ensures Last(run').db == Last(run).db.(subscriptions :=
      Last(run).db.subscriptions[x := Last(run).db.subscriptions[x].(status := Sub.Expired)])
    ensures |Last(run').passes| == |Last(run).passes| + 1 && Last(run').passes[..|Last(run).passes|] == Last(run).passes
    ensures Last(run').passes[|Last(run).passes|] == Pass(Sub.Trial, Sub.Expired, [], Some(Event(x, Sub.Trial, Sub.Expired, None, None)))
    ensures Last(run').lost == Last(run).lost && Last(run').overwritten == Last(run).overwritten
  {
    var trialEnd := Last(run).db.subscriptions[x].trialEnd.value;
    run' := Extend(run, Tick(if Last(run).clock > trialEnd then Last(run).clock else trialEnd + 1));
    run' := PassExpires(run', x);
  }

  lemma PassExpires(run: seq<State>, x: nat) returns (run': seq<State>)
    requires IsRun(run) && x in Last(run).db.subscriptions && InBatch(Last(run).db.subscriptions[x], Sub.Trial, Last(run).clock)
    ensures IsRun(run') && run <= run'
    ensures Last(run') == Last(run).(
      db := Last(run).db.(subscriptions := Last(run).db.subscriptions[x := Last(run).db.subscriptions[x].(status := Sub.Expired)]),
      passes := Last(run).passes + [Pass(Sub.Trial, Sub.Expired, [], Some(Event(x, Sub.Trial, Sub.Expired, None, None)))])
  {
    run' := Extend(run, ReadBatch(Sub.Trial, Sub.Expired, [x]));
    var pass := Last(run').passes[|Last(run).passes|];
    assert pass.rest == [x] && [x][1..] == [];
    run' := Extend(run', SwapStatus(|Last(run).passes|));
  }

  /**
   The rule that a terminal subscription is never modified, for plans: whether the write of a change can
   still meet a terminal status is settled by the status it reads. It can exactly when that is the trial.
   */
  lemma WriteMeetsTerminalExactlyWhen(run: seq<State>, x: nat, newPlan: nat)
    requires IsRun(run) && Enabled(Last(run), ReadPlan(x, newPlan))
    ensures (exists run' | IsRun(run') && run + [Step(Last(run), ReadPlan(x, newPlan))] <= run' ::
               WriteMeetsTerminal(run', |Last(run).planChanges|))
       <==> StatusAt(Last(run), x) == Sub.Trial
  {
    var c, read := |Last(run).planChanges|, run + [Step(Last(run), ReadPlan(x, newPlan))];
    if run' :| IsRun(run') && read <= run' && WriteMeetsTerminal(run', c) {
      assert run'[|run|] == read[|run|];
      ChangesStay(run', |run|, |run'| - 1, c);
      TerminalOnlyIfReadOnTrial(run', |run'| - 1, c);
    }
    if StatusAt(Last(run), x) == Sub.Trial {
      var run' := TrialExpiresBeforeWrite(run, x, newPlan);
      assert IsRun(run') && read <= run' && WriteMeetsTerminal(run', c);
    }
  }

  /** When the write does meet an expired subscription, it goes through and changes the plan all the same. */
  lemma TerminalPlanIsWritten(run: seq<State>, c: nat)
    requires IsRun(run) && WriteMeetsTerminal(run, c)
    ensures var (s, s', change) := (Last(run), Step(Last(run), WritePlan(c)), Last(run).planChanges[c]);
      && s'.db.subscriptions[change.subscription] == s.db.subscriptions[change.subscription].(plan := change.newPlan)
      && StatusAt(s, change.subscription) == Sub.Expired
      && s'.db.events == s.db.events + [Event(change.subscription, Sub.Trial, Sub.Trial, Some(change.read.plan), Some(change.newPlan))]
  {
    TerminalOnlyIfReadOnTrial(run, |run| - 1, c);
  }
}
