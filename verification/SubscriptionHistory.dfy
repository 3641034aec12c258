/**
 The history of subscriptions along the runs of BillingRuns: the path each status takes, and the
 balance of the event log, where the lifecycle job writes an event only after its compare-and-swap.
 */
module SubscriptionHistory {
  import opened Wrappers
  import opened Billing
  import opened BillingRuns
  import Sub = SubscriptionStatus

  // ---- Flow through a status ----

  function Delta(e: Event, x: nat, st: Sub.Status): int {
    if e.subscription != x then 0
    else (if e.to == st then 1 else 0) - if e.from == st then 1 else 0
  }

  /** Events of subscription `x` into status `st`, minus those out of it. */
  function Flow(events: seq<Event>, x: nat, st: Sub.Status): int {
    if events == [] then 0
    else Flow(events[..|events| - 1], x, st) + Delta(events[|events| - 1], x, st)
  }

  function OwedBy(pass: Pass, x: nat, st: Sub.Status): int {
    if pass.owed.Some? then Delta(pass.owed.value, x, st) else 0
  }

  /** The same balance over the events that passes have still to write. */
  function OwedFlow(passes: seq<Pass>, x: nat, st: Sub.Status): int {
    if passes == [] then 0
    else OwedFlow(passes[..|passes| - 1], x, st) + OwedBy(passes[|passes| - 1], x, st)
  }

  function Is(a: Sub.Status, b: Sub.Status): int {
    if a == b then 1 else 0
  }

  lemma FlowSnoc(events: seq<Event>, e: Event, x: nat, st: Sub.Status)
    ensures Flow(events + [e], x, st) == Flow(events, x, st) + Delta(e, x, st)
  {
    assert (events + [e])[..|events|] == events;
  }

  lemma OwedSnoc(passes: seq<Pass>, pass: Pass, x: nat, st: Sub.Status)
    ensures OwedFlow(passes + [pass], x, st) == OwedFlow(passes, x, st) + OwedBy(pass, x, st)
  {
    assert (passes + [pass])[..|passes|] == passes;
  }

  lemma {:induction false} OwedUpdate(passes: seq<Pass>, j: nat, pass: Pass, x: nat, st: Sub.Status)
    requires j < |passes|
    ensures OwedFlow(passes[j := pass], x, st) - OwedFlow(passes, x, st) == OwedBy(pass, x, st) - OwedBy(passes[j], x, st)
  {
    var n := |passes| - 1;
    if j == n {
      assert passes[j := pass][..n] == passes[..n];
    } else {
      assert passes[j := pass][..n] == passes[..n][j := pass];
      OwedUpdate(passes[..n], j, pass, x, st);
    }
  }

  // ---- The invariant ----

  ghost predicate KnownEvents(db: Db, events: seq<Event>) {
    forall i | 0 <= i < |events| ::
      events[i].subscription in db.subscriptions
      && (events[i].from == events[i].to || Sub.CanTransition(events[i].from, events[i].to))
  }

  /** Events of the lifecycle job, about subscriptions that exist. */
  ghost predicate JobEvents(db: Db, events: seq<Event>) {
    forall i | 0 <= i < |events| ::
      events[i].subscription in db.subscriptions && JobTransition(events[i].from, events[i].to)
  }

  ghost predicate PassOk(db: Db, pass: Pass) {
    && JobTransition(pass.from, pass.to)
    && (forall x | x in pass.rest :: x in db.subscriptions)
    && (pass.owed.Some? ==>
          pass.owed.value.subscription in db.subscriptions
          && pass.owed.value.from == pass.from && pass.owed.value.to == pass.to)
  }

  lemma JobTransitionAllowed(from: Sub.Status, to: Sub.Status)
    requires JobTransition(from, to)
    ensures Sub.CanTransition(from, to)
  {
    assert Sub.AllowedTransitions(from)[1] == to;
  }

  ghost predicate Balanced(s: State, x: nat, st: Sub.Status) {
    Flow(s.db.events, x, st) + OwedFlow(s.passes, x, st) + Flow(s.lost, x, st) + Flow(s.overwritten, x, st)
    == if x in s.db.subscriptions then Is(s.db.subscriptions[x].status, st) - Is(Sub.Trial, st) else 0
  }

  /** Steps from one status to another, of subscriptions that exist. */
  ghost predicate Overwrites(db: Db, events: seq<Event>) {
    forall i | 0 <= i < |events| :: events[i].subscription in db.subscriptions && events[i].from != events[i].to
  }

  ghost predicate SubSide(s: State) {
    && KnownEvents(s.db, s.db.events) && JobEvents(s.db, s.lost) && Overwrites(s.db, s.overwritten)
    && (forall j | 0 <= j < |s.passes| :: PassOk(s.db, s.passes[j]))
    && (forall x: nat, st :: Balanced(s, x, st))
  }

  /**
   A delivery logs a move from the status it read. That is the move it makes exactly when it writes none
   or found what it had read; otherwise the log is off by the step from the one to the other.
   */
  lemma ResolveBalances(db: Db, p: nat, succeeded: bool, read: Subscription, now: nat, graceUntil: nat, x: nat, st: Sub.Status)
    requires Deliverable(db, p) && Resolve(db, p, succeeded, read, now, graceUntil).Applied? && x in db.subscriptions
    ensures var db' := Resolve(db, p, succeeded, read, now, graceUntil).db;
      && x in db'.subscriptions
      && Flow(db'.events, x, st) - Flow(db.events, x, st)
         == Is(db'.subscriptions[x].status, st)
            - if x == db.payments[p].subscription.value && Writes(succeeded, read.status) then Is(read.status, st)
              else Is(db.subscriptions[x].status, st)
  {
    hide Resolve;
    AppliedLogs(db, p, succeeded, read, now, graceUntil);
    if Writes(succeeded, read.status) {
      FlowSnoc(db.events, Resolve(db, p, succeeded, read, now, graceUntil).db.events[|db.events|], x, st);
    }
  }

  /** So a delivery's writes leave the log balanced at every status exactly when it was not overtaken. */
  lemma WriteBalancesExactlyWhen(s: State, d: nat)
    requires Enabled(s, Commit(d)) && Attempt(s, d).Applied?
    ensures var (x, db') := (s.db.payments[s.deliveries[d].payment.value].subscription.value, Attempt(s, d).db);
      && x in db'.subscriptions
      && ((forall st :: Flow(db'.events, x, st) - Flow(s.db.events, x, st)
                        == Is(db'.subscriptions[x].status, st) - Is(s.db.subscriptions[x].status, st))
          <==> !Overtaken(s, d))
  {
    hide Resolve, Flow;
    var delivery := s.deliveries[d];
    var x := s.db.payments[delivery.payment.value].subscription.value;
    AppliedLogs(s.db, delivery.payment.value, delivery.notice.succeeded, delivery.pc.read, s.clock, s.clock + GRACE_PERIOD);
    forall st
      ensures x in Attempt(s, d).db.subscriptions
      ensures Flow(Attempt(s, d).db.events, x, st) - Flow(s.db.events, x, st)
           == Is(Attempt(s, d).db.subscriptions[x].status, st)
              - if Writes(delivery.notice.succeeded, delivery.pc.read.status) then Is(delivery.pc.read.status, st)
                else Is(s.db.subscriptions[x].status, st)
    {
      ResolveBalances(s.db, delivery.payment.value, delivery.notice.succeeded, delivery.pc.read,
                      s.clock, s.clock + GRACE_PERIOD, x, st);
    }
    if Overtaken(s, d) {
      assert Is(delivery.pc.read.status, delivery.pc.read.status) != Is(Found(s, d).status, delivery.pc.read.status);
    }
  }

  lemma OverwrittenFlow(s: State, d: nat, x: nat, st: Sub.Status)
    requires Enabled(s, Commit(d))
    ensures Flow(s.overwritten + OverwrittenBy(s, d), x, st) - Flow(s.overwritten, x, st) ==
      if Overtaken(s, d) && x == s.db.payments[s.deliveries[d].payment.value].subscription.value then
        Is(s.deliveries[d].pc.read.status, st) - Is(Found(s, d).status, st)
      else 0
  {
    if Overtaken(s, d) {
      FlowSnoc(s.overwritten, OverwrittenBy(s, d)[0], x, st);
    } else {
      assert s.overwritten + [] == s.overwritten;
    }
  }

  lemma CommitBalances(s: State, d: nat, x: nat, st: Sub.Status)
    requires Balanced(s, x, st) && Enabled(s, Commit(d)) && Attempt(s, d).Applied?
    ensures Balanced(AfterCommit(s, d, Attempt(s, d)), x, st)
  {
    hide Resolve, Flow;
    var delivery := s.deliveries[d];
    OverwrittenFlow(s, d, x, st);
    AppliedLogs(s.db, delivery.payment.value, delivery.notice.succeeded, delivery.pc.read, s.clock, s.clock + GRACE_PERIOD);
    if x in s.db.subscriptions {
      ResolveBalances(s.db, delivery.payment.value, delivery.notice.succeeded, delivery.pc.read, s.clock, s.clock + GRACE_PERIOD, x, st);
    } else if Writes(delivery.notice.succeeded, delivery.pc.read.status) {
      FlowSnoc(s.db.events, Attempt(s, d).db.events[|s.db.events|], x, st);
    }
  }

  lemma CommitKeepsSubSide(s: State, d: nat)
    requires SubSide(s) && Enabled(s, Commit(d))
    ensures SubSide(AfterCommit(s, d, Attempt(s, d)))
  {
    hide Resolve, Balanced;
    var verdict, delivery := Attempt(s, d), s.deliveries[d];
    var s' := AfterCommit(s, d, verdict);
    if verdict.Applied? {
      AppliedLogs(s.db, delivery.payment.value, delivery.notice.succeeded, delivery.pc.read, s.clock, s.clock + GRACE_PERIOD);
      forall y: nat, st
        ensures Balanced(s', y, st)
      {
        CommitBalances(s, d, y, st);
      }
    } else {
      forall y: nat, st
        ensures Balanced(s', y, st)
      {
        SameBalance(s, s', y, st);
      }
    }
  }

  lemma SameBalance(s: State, s': State, x: nat, st: Sub.Status)
    requires Balanced(s, x, st) && s'.db == s.db && s'.passes == s.passes && s'.lost == s.lost && s'.overwritten == s.overwritten
    ensures Balanced(s', x, st)
  {
  }

  /** A swap owes exactly the move it makes. */
  lemma SwapBalances(s: State, j: nat, x: nat, st: Sub.Status)
    requires Balanced(s, x, st) && Enabled(s, SwapStatus(j))
    ensures Balanced(Step(s, SwapStatus(j)), x, st)
  {
    OwedUpdate(s.passes, j, Step(s, SwapStatus(j)).passes[j], x, st);
  }

  lemma SwapKeepsSubSide(s: State, j: nat)
    requires SubSide(s) && Enabled(s, SwapStatus(j))
    ensures SubSide(Step(s, SwapStatus(j)))
  {
    hide Balanced;
    var s', pass := Step(s, SwapStatus(j)), s.passes[j];
    assert PassOk(s.db, pass);
    assert pass.rest[0] in pass.rest;
    forall y: nat, st
      ensures Balanced(s', y, st)
    {
      SwapBalances(s, j, y, st);
    }
  }

  /** Writing or losing an owed event moves it from one side of the balance to the other. */
  lemma WriteBalances(s: State, j: nat, written: bool, x: nat, st: Sub.Status)
    requires Balanced(s, x, st) && Enabled(s, WriteEvent(j, written))
    ensures Balanced(Step(s, WriteEvent(j, written)), x, st)
  {
    OwedUpdate(s.passes, j, Step(s, WriteEvent(j, written)).passes[j], x, st);
    FlowSnoc(s.db.events, s.passes[j].owed.value, x, st);
    FlowSnoc(s.lost, s.passes[j].owed.value, x, st);
  }

  lemma WriteKeepsSubSide(s: State, j: nat, written: bool)
    requires SubSide(s) && Enabled(s, WriteEvent(j, written))
    ensures SubSide(Step(s, WriteEvent(j, written)))
  {
    hide Balanced;
    var s', pass := Step(s, WriteEvent(j, written)), s.passes[j];
    assert PassOk(s.db, pass);
    JobTransitionAllowed(pass.from, pass.to);
    forall y: nat, st
      ensures Balanced(s', y, st)
    {
      WriteBalances(s, j, written, y, st);
    }
  }

  lemma PlanKeepsSubSide(s: State, i: nat)
    requires SubSide(s) && Enabled(s, WritePlan(i))
    ensures SubSide(Step(s, WritePlan(i)))
  {
    var s', change := Step(s, WritePlan(i)), s.planChanges[i];
    var e := s'.db.events[|s.db.events|];
    assert s'.db.events == s.db.events + [e];
    forall y: nat, st
      ensures Balanced(s', y, st)
    {
      assert Balanced(s, y, st);
      FlowSnoc(s.db.events, e, y, st);
    }
  }

  lemma BatchKeepsSubSide(s: State, from: Sub.Status, to: Sub.Status, batch: seq<nat>)
    requires SubSide(s) && Enabled(s, ReadBatch(from, to, batch))
    ensures SubSide(Step(s, ReadBatch(from, to, batch)))
  {
    var s' := Step(s, ReadBatch(from, to, batch));
    forall y: nat, st
      ensures Balanced(s', y, st)
    {
      assert Balanced(s, y, st);
      OwedSnoc(s.passes, Pass(from, to, batch, None), y, st);
    }
  }

  predicate TouchesSubscriptions(a: Action) {
    a.Commit? || a.SwapStatus? || a.WriteEvent? || a.WritePlan? || a.ReadBatch? || a.Subscribe?
  }

  /** The other steps leave subscriptions, events and passes alone. */
  lemma OtherSteps(s: State, a: Action)
    requires Enabled(s, a) && !TouchesSubscriptions(a)
    ensures var s' := Step(s, a);
      && s'.db.subscriptions == s.db.subscriptions && s'.db.events == s.db.events
      && s'.passes == s.passes && s'.lost == s.lost && s'.overwritten == s.overwritten
  {
  }

  lemma SubscribeKeepsSubSide(s: State, x: nat, plan: nat, trialEnd: nat)
    requires SubSide(s) && Enabled(s, Subscribe(x, plan, trialEnd))
    ensures SubSide(Step(s, Subscribe(x, plan, trialEnd)))
  {
    var s' := Step(s, Subscribe(x, plan, trialEnd));
    assert forall y: nat, st :: Balanced(s, y, st) ==> Balanced(s', y, st);
  }

  lemma StepKeepsSubSide(s: State, a: Action)
    requires SubSide(s) && Enabled(s, a)
    ensures SubSide(Step(s, a))
  {
    if !TouchesSubscriptions(a) {
      OtherSteps(s, a);
      assert forall y: nat, st :: Balanced(s, y, st) ==> Balanced(Step(s, a), y, st);
    } else {
      match a
      case Commit(d) => CommitKeepsSubSide(s, d);
      case SwapStatus(j) => SwapKeepsSubSide(s, j);
      case WriteEvent(j, written) => WriteKeepsSubSide(s, j, written);
      case WritePlan(i) => PlanKeepsSubSide(s, i);
      case ReadBatch(from, to, batch) => BatchKeepsSubSide(s, from, to, batch);
      case Subscribe(x, plan, trialEnd) => SubscribeKeepsSubSide(s, x, plan, trialEnd);
    }
  }

  lemma {:induction false} RunKeepsSubSide(run: seq<State>, i: nat)
    requires IsRun(run) && i < |run|
    ensures SubSide(run[i])
  {
    if i == 0 {
    } else {
      RunKeepsSubSide(run, i - 1);
      assert Next(run[i - 1], run[i - 1 + 1]);
      var a :| Enabled(run[i - 1], a) && Step(run[i - 1], a) == run[i];
      StepKeepsSubSide(run[i - 1], a);
    }
  }

  // ---- What every run guarantees about subscriptions ----

  /**
   Conservation: for every subscription and status, events in minus events out, counting what passes
   still owe or have lost and the steps that overtaken deliveries wrote over, equal one for the current
   status minus one for the trial it began in.
   */
  lemma FlowIsConserved(run: seq<State>, i: nat, x: nat, st: Sub.Status)
    requires IsRun(run) && i < |run| && x in run[i].db.subscriptions
    ensures Flow(run[i].db.events, x, st) + OwedFlow(run[i].passes, x, st) + Flow(run[i].lost, x, st) + Flow(run[i].overwritten, x, st)
         == Is(run[i].db.subscriptions[x].status, st) - Is(Sub.Trial, st)
  {
    RunKeepsSubSide(run, i);
    assert Balanced(run[i], x, st);
  }

  /** The same without the overtaken deliveries, which leave no trace in the tables. */
  ghost predicate Conserved(s: State, x: nat) {
    forall st :: Flow(s.db.events, x, st) + OwedFlow(s.passes, x, st) + Flow(s.lost, x, st)
                 == Is(StatusAt(s, x), st) - Is(Sub.Trial, st)
  }

  lemma {:induction false} FlowAbsent(events: seq<Event>, x: nat, st: Sub.Status)
    requires !Mentions(events, x)
    ensures Flow(events, x, st) == 0
  {
    if events != [] {
      var init, last := events[..|events| - 1], events[|events| - 1];
      assert events == init + [last];
      assert forall i | 0 <= i < |init| :: init[i] == events[i];
      FlowAbsent(init, x, st);
    }
  }

  lemma ConservedWithoutOverwrites(s: State, x: nat)
    requires SubSide(s) && !Mentions(s.overwritten, x)
    ensures Conserved(s, x)
  {
    hide Flow, OwedFlow, SubSide;
    forall st
      ensures Flow(s.db.events, x, st) + OwedFlow(s.passes, x, st) + Flow(s.lost, x, st) == Is(StatusAt(s, x), st) - Is(Sub.Trial, st)
    {
      assert Balanced(s, x, st) by { BalancedAt(s, x, st); }
      FlowAbsent(s.overwritten, x, st);
    }
  }

  lemma BalancedAt(s: State, x: nat, st: Sub.Status)
    requires SubSide(s)
    ensures Balanced(s, x, st)
  {
  }

  /** The first overwrite of a subscription unbalances it. */
  lemma FirstOverwrite(s: State, x: nat)
    requires SubSide(s) && s.overwritten != [] && s.overwritten[|s.overwritten| - 1].subscription == x
    requires !Mentions(s.overwritten[..|s.overwritten| - 1], x)
    ensures !Conserved(s, x)
  {
    var e := s.overwritten[|s.overwritten| - 1];
    assert e.from != e.to;
    FlowAbsent(s.overwritten[..|s.overwritten| - 1], x, e.to);
    assert Flow(s.overwritten, x, e.to) == 1;
    BalancedAt(s, x, e.to);
  }

  lemma OverwritesGrow(s: State, a: Action)
    requires Enabled(s, a)
    ensures Step(s, a).overwritten == s.overwritten
         || (|Step(s, a).overwritten| == |s.overwritten| + 1 && s.overwritten <= Step(s, a).overwritten)
  {
  }

  /**
   Log, owed and lost events account for a subscription throughout a run exactly when no delivery that
   wrote its status was overtaken between its read and its write.
   */
  lemma {:induction false} ConservedExactlyWhen(run: seq<State>, n: nat, x: nat)
    requires IsRun(run) && n < |run|
    ensures (forall i | 0 <= i <= n :: Conserved(run[i], x)) <==> !Mentions(run[n].overwritten, x)
  {
    hide Step, Enabled, SubSide, Conserved;
    RunKeepsSubSide(run, n);
    if !Mentions(run[n].overwritten, x) {
      ConservedWithoutOverwrites(run[n], x);
    }
    if n > 0 {
      ConservedExactlyWhen(run, n - 1, x);
      assert Next(run[n - 1], run[n - 1 + 1]);
      var a :| Enabled(run[n - 1], a) && Step(run[n - 1], a) == run[n];
      OverwritesGrow(run[n - 1], a);
      var before, after := run[n - 1].overwritten, run[n].overwritten;
      if Mentions(before, x) {
        var k :| 0 <= k < |before| && before[k].subscription == x;
        assert after[k].subscription == x;
      } else if Mentions(after, x) {
        assert after[..|after| - 1] == before;
        FirstOverwrite(run[n], x);
      }
    }
  }

  ghost predicate Mentions(events: seq<Event>, x: nat) {
    exists i | 0 <= i < |events| :: events[i].subscription == x
  }

  ghost predicate Owes(passes: seq<Pass>, x: nat) {
    exists j | 0 <= j < |passes| :: passes[j].owed.Some? && passes[j].owed.value.subscription == x
  }

  /** An event of the lifecycle job leads into one of two statuses that none of them leaves. */
  lemma JobDelta(e: Event, x: nat)
    requires JobTransition(e.from, e.to)
    ensures Delta(e, x, Sub.Expired) >= 0 && Delta(e, x, Sub.Suspended) >= 0
    ensures Delta(e, x, Sub.Expired) + Delta(e, x, Sub.Suspended) == if e.subscription == x then 1 else 0
  {
  }

  /** Events of the job cannot cancel out: they are balanced at those two statuses only if there are none. */
  lemma {:induction false} JobFlow(events: seq<Event>, x: nat)
    requires forall i | 0 <= i < |events| :: JobTransition(events[i].from, events[i].to)
    ensures Flow(events, x, Sub.Expired) >= 0 && Flow(events, x, Sub.Suspended) >= 0
    ensures Flow(events, x, Sub.Expired) + Flow(events, x, Sub.Suspended) == 0 <==> !Mentions(events, x)
    ensures !Mentions(events, x) ==> forall st :: Flow(events, x, st) == 0
  {
    if events == [] {
    } else {
      var init, last := events[..|events| - 1], events[|events| - 1];
      JobFlow(init, x);
      JobDelta(last, x);
      assert Mentions(events, x) <==> Mentions(init, x) || last.subscription == x by {
        assert events == init + [last];
      }
    }
  }

  lemma {:induction false} JobOwed(passes: seq<Pass>, x: nat)
    requires forall j | 0 <= j < |passes| && passes[j].owed.Some? ::
      JobTransition(passes[j].owed.value.from, passes[j].owed.value.to)
    ensures OwedFlow(passes, x, Sub.Expired) >= 0 && OwedFlow(passes, x, Sub.Suspended) >= 0
    ensures OwedFlow(passes, x, Sub.Expired) + OwedFlow(passes, x, Sub.Suspended) == 0 <==> !Owes(passes, x)
    ensures !Owes(passes, x) ==> forall st :: OwedFlow(passes, x, st) == 0
  {
    if passes == [] {
    } else {
      var init, last := passes[..|passes| - 1], passes[|passes| - 1];
      JobOwed(init, x);
      if last.owed.Some? {
        JobDelta(last.owed.value, x);
      }
      assert Owes(passes, x) <==> Owes(init, x) || (last.owed.Some? && last.owed.value.subscription == x) by {
        assert passes == init + [last];
      }
    }
  }

  /** By how much the log of a subscription is off at a status. */
  function LogError(s: State, x: nat, st: Sub.Status): int {
    Flow(s.db.events, x, st) - (Is(StatusAt(s, x), st) - Is(Sub.Trial, st))
  }

  ghost predicate LogBalances(s: State, x: nat) {
    forall st :: LogError(s, x, st) == 0
  }

  /** What the log lacks: events owed or lost, and steps written over. */
  function Lacking(s: State, x: nat, st: Sub.Status): int {
    OwedFlow(s.passes, x, st) + Flow(s.lost, x, st) + Flow(s.overwritten, x, st)
  }

  /**
   The log of a subscription accounts for its status exactly when what it lacks, the owed and lost events
   and the overwritten steps, flows back to where it started. Without overwritten steps that is exactly
   when nothing is owed or lost: those events lead into two statuses only and never make up for each other.
   */
  lemma LogBalancesExactlyWhen(run: seq<State>, i: nat, x: nat)
    requires IsRun(run) && i < |run| && x in run[i].db.subscriptions
    ensures LogBalances(run[i], x) <==> forall st :: Lacking(run[i], x, st) == 0
    ensures !Mentions(run[i].overwritten, x) ==>
      (LogBalances(run[i], x) <==> !Mentions(run[i].lost, x) && !Owes(run[i].passes, x))
  {
    RunKeepsSubSide(run, i);
    var s := run[i];
    hide Flow, OwedFlow, SubSide;
    forall st
      ensures LogError(s, x, st) == -Lacking(s, x, st)
    {
      FlowIsConserved(run, i, x, st);
    }
    if !Mentions(s.overwritten, x) {
      LogBalancesUnwritten(s, x);
    }
  }

  lemma LogBalancesUnwritten(s: State, x: nat)
    requires SubSide(s) && !Mentions(s.overwritten, x)
    ensures LogBalances(s, x) <==> !Mentions(s.lost, x) && !Owes(s.passes, x)
  {
    hide Flow, OwedFlow;
    forall j | 0 <= j < |s.passes| && s.passes[j].owed.Some?
      ensures JobTransition(s.passes[j].owed.value.from, s.passes[j].owed.value.to)
    {
      assert PassOk(s.db, s.passes[j]);
    }
    JobFlow(s.lost, x);
    JobOwed(s.passes, x);
    ConservedWithoutOverwrites(s, x);
    forall st
      ensures LogError(s, x, st) == -(OwedFlow(s.passes, x, st) + Flow(s.lost, x, st))
    {
    }
  }

  /**
   A hole in the log is mended by nothing but another one: once an event of a subscription is lost, its log
   balances again at most after a delivery has written over a status it had not read.
   */
  lemma {:induction false} LostForGood(run: seq<State>, i: nat, j: nat, x: nat)
    requires IsRun(run) && i <= j < |run| && x in run[i].db.subscriptions && Mentions(run[i].lost, x)
    ensures x in run[j].db.subscriptions && Mentions(run[j].lost, x)
    ensures LogBalances(run[j], x) ==> Mentions(run[j].overwritten, x)
  {
    hide Step, Enabled, SubSide, LogBalances;
    if i < j {
      LostForGood(run, i, j - 1, x);
      assert Next(run[j - 1], run[j - 1 + 1]);
      var a :| Enabled(run[j - 1], a) && Step(run[j - 1], a) == run[j];
      LostGrows(run[j - 1], a);
      SubscriptionsStay(run[j - 1], a);
      var k :| 0 <= k < |run[j - 1].lost| && run[j - 1].lost[k].subscription == x;
      assert run[j].lost[k].subscription == x;
    }
    LogBalancesExactlyWhen(run, j, x);
  }

  lemma SubscriptionsStay(s: State, a: Action)
    requires Enabled(s, a)
    ensures s.db.subscriptions.Keys <= Step(s, a).db.subscriptions.Keys
  {
  }

  lemma LostGrows(s: State, a: Action)
    requires Enabled(s, a)
    ensures s.lost <= Step(s, a).lost
  {
  }

  /** Whenever a pass owes an event there is a continuation in which the job loses it. */
  lemma OwedMayBeLost(run: seq<State>, j: nat) returns (run': seq<State>)
    requires IsRun(run) && Enabled(Last(run), WriteEvent(j, false))
    ensures IsRun(run') && run <= run' && Mentions(Last(run').lost, Last(run).passes[j].owed.value.subscription)
  {
    run' := Extend(run, WriteEvent(j, false));
    assert Last(run').lost[|Last(run).lost|] == Last(run).passes[j].owed.value;
  }

  /** Until it is created a subscription counts as being in the trial it will begin with. */
  function StatusAt(s: State, x: nat): Sub.Status {
    if x in s.db.subscriptions then s.db.subscriptions[x].status else Sub.Trial
  }
}
