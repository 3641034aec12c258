/**
 The rows that a payment touches, and the transactions over them: the one inside a webhook delivery,
 the compare-and-swaps of the two hourly jobs, and the plan change of an administrator. One
 enterprise, with any number of subscriptions and payments.
 */
module Billing {
  import opened Wrappers
  import Sub = SubscriptionStatus
  import Money
  import Sums

  datatype PaymentStatus = Pending | Succeeded | Failed | Refunded | Expired

  /** What a delivery reports about a payment; `status` is Succeeded or Failed. */
  datatype Notice = Notice(reference: string, succeeded: bool, amount: nat, currency: string)

  function StatusOf(succeeded: bool): PaymentStatus {
    if succeeded then Succeeded else Failed
  }

  /** A conflicting notice, kept in the payment's metadata for a manual reconciliation. */
  datatype Conflict = Conflict(incoming: PaymentStatus, against: PaymentStatus)

  datatype Payment = Payment(
    reference: string,
    subscription: Option<nat>,
    amount: nat,
    currency: string,
    expiresAt: Option<nat>,
    status: PaymentStatus,
    paidAt: Option<nat>,
    conflict: Option<Conflict>)

  datatype Subscription = Subscription(
    status: Sub.Status,
    plan: nat,
    trialEnd: Option<nat>,
    renewal: Option<nat>)

  datatype Event = Event(subscription: nat, from: Sub.Status, to: Sub.Status, fromPlan: Option<nat>, toPlan: Option<nat>)

  datatype Invoice = Invoice(payment: nat, subscription: nat, number: nat, amount: nat, split: Money.Split)

  datatype Db = Db(
    payments: map<nat, Payment>,
    subscriptions: map<nat, Subscription>,
    events: seq<Event>,
    invoices: seq<Invoice>,
    counter: nat)

  // ---- Transactions, as functions on the rows ----

  /** UPDATE payments SET status = 'EXPIRED' WHERE id = p AND status = 'PENDING'. */
  function ExpireIfPending(db: Db, p: nat): (Db, nat) {
    if p in db.payments && db.payments[p].status == Pending then
      (db.(payments := db.payments[p := db.payments[p].(status := Expired)]), 1)
    else (db, 0)
  }

  /** UPDATE subscriptions SET status = to WHERE id = x AND status = from. */
  function MoveIfStill(db: Db, x: nat, from: Sub.Status, to: Sub.Status): (Db, nat) {
    if x in db.subscriptions && db.subscriptions[x].status == from then
      (db.(subscriptions := db.subscriptions[x := db.subscriptions[x].(status := to)]), 1)
    else (db, 0)
  }

  /** The next number of the enterprise, and the invoice that carries it. */
  function IssueInvoice(db: Db, p: nat, x: nat, amount: nat): Db {
    db.(counter := db.counter + 1,
        invoices := db.invoices + [Invoice(p, x, db.counter + 1, amount, Money.SplitInclusive(amount, Money.PLATFORM_VAT_RATE))])
  }

  /** The status a payment outcome asks for; a failure during the trial asks for none. */
  function TargetStatus(succeeded: bool, current: Sub.Status): Option<Sub.Status> {
    if succeeded then Some(Sub.Active)
    else if current == Sub.Trial then None
    else Some(Sub.PastDue)
  }

  datatype Verdict = Lost | Refused(from: Sub.Status, to: Sub.Status) | Applied(db: Db)

  predicate Deliverable(db: Db, p: nat) {
    p in db.payments && db.payments[p].subscription.Some? && db.payments[p].subscription.value in db.subscriptions
  }

  /** Whether a delivery that has read this status writes another one. */
  predicate Writes(succeeded: bool, read: Sub.Status) {
    TargetStatus(succeeded, read).Some? && TargetStatus(succeeded, read).value != read
  }

  /** What a delivery that has read `read` makes of the row it finds: it updates by id. */
  function Overwrite(found: Subscription, read: Subscription, succeeded: bool, graceUntil: nat): Subscription {
    if Writes(succeeded, read.status) then
      found.(status := TargetStatus(succeeded, read.status).value, renewal := if succeeded then read.renewal else Some(graceUntil))
    else if TargetStatus(succeeded, read.status) == Some(Sub.PastDue) then found.(renewal := Some(graceUntil))
    else found
  }

  /**
   The transaction of a delivery, after it has read the subscription as `read`: the payment leaves
   PENDING, the subscription follows, and a success is invoiced. A refused transition rolls everything
   back, the payment included.
   */
  function Resolve(db: Db, p: nat, succeeded: bool, read: Subscription, now: nat, graceUntil: nat): Verdict
    requires Deliverable(db, p)
  {
    var payment := db.payments[p];
    if payment.status != Pending then Lost
    else if Writes(succeeded, read.status) && !Sub.CanTransition(read.status, TargetStatus(succeeded, read.status).value) then
      Refused(read.status, TargetStatus(succeeded, read.status).value)
    else
      var x := payment.subscription.value;
      var paid := payment.(status := StatusOf(succeeded), paidAt := if succeeded then Some(now) else None);
      var told := if Writes(succeeded, read.status) then
          [Event(x, read.status, TargetStatus(succeeded, read.status).value, Some(read.plan), Some(read.plan))]
        else [];
      var db' := db.(payments := db.payments[p := paid],
                     subscriptions := db.subscriptions[x := Overwrite(db.subscriptions[x], read, succeeded, graceUntil)],
                     events := db.events + told);
      Applied(if succeeded then IssueInvoice(db', p, x, payment.amount) else db')
  }

  /** The plan changes and its event is written together; the event repeats what was read before. */
  function ChangePlan(db: Db, x: nat, read: Subscription, newPlan: nat): Db {
    if x in db.subscriptions then
      db.(subscriptions := db.subscriptions[x := db.subscriptions[x].(plan := newPlan)],
          events := db.events + [Event(x, read.status, read.status, Some(read.plan), Some(newPlan))])
    else db
  }

  datatype PlanChangeResult = NoSubscriptionFound | SubscriptionIsTerminal | PlanNotFound | AlreadyOnPlan | PlanChanged

  /** The guards of a plan change, on what it reads before its transaction. */
  function CheckPlanChange(db: Db, x: nat, newPlan: nat, planKnown: bool): PlanChangeResult {
    if x !in db.subscriptions then NoSubscriptionFound
    else if Sub.Terminal(db.subscriptions[x].status) then SubscriptionIsTerminal
    else if !planKnown then PlanNotFound
    else if db.subscriptions[x].plan == newPlan then AlreadyOnPlan
    else PlanChanged
  }

  function PassStep(db: Db, x: nat, from: Sub.Status, to: Sub.Status, written: bool): Db {
    var (after, count) := MoveIfStill(db, x, from, to);
    if count == 1 && written then after.(events := after.events + [Event(x, from, to, None, None)]) else after
  }

  /** A lifecycle pass over its batch: a swap for each subscription, and its event if that can be written. */
  function RunPass(db: Db, batch: seq<nat>, from: Sub.Status, to: Sub.Status, written: seq<bool>): Db
    requires |written| == |batch|
  {
    if batch == [] then db
    else
      var n := |batch| - 1;
      PassStep(RunPass(db, batch[..n], from, to, written[..n]), batch[n], from, to, written[n])
  }

  /** The events that such a pass leaves behind, for the subscriptions that are in `from` when it starts. */
  function PassEvents(rows: map<nat, Subscription>, batch: seq<nat>, from: Sub.Status, to: Sub.Status, written: seq<bool>): seq<Event>
    requires |written| == |batch|
  {
    if batch == [] then []
    else
      var n := |batch| - 1;
      PassEvents(rows, batch[..n], from, to, written[..n])
      + if batch[n] in rows && rows[batch[n]].status == from && written[n] then [Event(batch[n], from, to, None, None)] else []
  }

  /** Of the subscriptions `xs`, those in `from` have gone to `to`; no other row but the log has changed. */
  ghost predicate Moves(db: Db, db': Db, xs: set<nat>, from: Sub.Status, to: Sub.Status) {
    && db' == db.(subscriptions := db'.subscriptions, events := db'.events)
    && db'.subscriptions.Keys == db.subscriptions.Keys
    && forall x | x in db.subscriptions ::
         db'.subscriptions[x] == if x in xs && db.subscriptions[x].status == from then db.subscriptions[x].(status := to)
                                 else db.subscriptions[x]
  }

  lemma PassStepMoves(db: Db, x: nat, from: Sub.Status, to: Sub.Status, written: bool)
    ensures Moves(db, PassStep(db, x, from, to, written), {x}, from, to)
  {
  }

  lemma MovesCompose(db: Db, mid: Db, db': Db, xs: set<nat>, x: nat, from: Sub.Status, to: Sub.Status)
    requires Moves(db, mid, xs, from, to) && Moves(mid, db', {x}, from, to) && from != to
    ensures Moves(db, db', xs + {x}, from, to)
  {
  }

  /** A pass moves exactly the subscriptions of its batch that are still in the status it looks for. */
  lemma {:induction false} PassMoves(db: Db, batch: seq<nat>, from: Sub.Status, to: Sub.Status, written: seq<bool>)
    requires |written| == |batch| && from != to
    ensures Moves(db, RunPass(db, batch, from, to, written), Sums.Elements(batch), from, to)
  {
    if batch == [] {
    } else {
      hide Moves, PassStep;
      var n := |batch| - 1;
      var mid := RunPass(db, batch[..n], from, to, written[..n]);
      PassMoves(db, batch[..n], from, to, written[..n]);
      PassStepMoves(mid, batch[n], from, to, written[n]);
      MovesCompose(db, mid, PassStep(mid, batch[n], from, to, written[n]), Sums.Elements(batch[..n]), batch[n], from, to);
      assert Sums.Elements(batch) == Sums.Elements(batch[..n]) + {batch[n]};
    }
  }

  /** A pass logs exactly the moves whose event could be written; one failure does not stop the others. */
  lemma {:induction false} PassLogs(db: Db, batch: seq<nat>, from: Sub.Status, to: Sub.Status, written: seq<bool>)
    requires |written| == |batch| && from != to && Sums.Distinct(batch)
    ensures RunPass(db, batch, from, to, written).events == db.events + PassEvents(db.subscriptions, batch, from, to, written)
  {
    if batch == [] {
    } else {
      var n := |batch| - 1;
      PassLogs(db, batch[..n], from, to, written[..n]);
      PassMoves(db, batch[..n], from, to, written[..n]);
      Sums.DistinctPrefix(batch);
    }
  }

  /** The answers to a plan change, each in its case; the order of the checks decides between them. */
  lemma PlanChangeAnswers(db: Db, x: nat, newPlan: nat, planKnown: bool)
    ensures match CheckPlanChange(db, x, newPlan, planKnown)
      case NoSubscriptionFound => x !in db.subscriptions
      case SubscriptionIsTerminal => x in db.subscriptions && db.subscriptions[x].status in {Sub.Cancelled, Sub.Expired}
      case PlanNotFound => !planKnown && x in db.subscriptions && db.subscriptions[x].status !in {Sub.Cancelled, Sub.Expired}
      case AlreadyOnPlan =>
        planKnown && x in db.subscriptions && db.subscriptions[x].status !in {Sub.Cancelled, Sub.Expired} && db.subscriptions[x].plan == newPlan
      case PlanChanged =>
        planKnown && x in db.subscriptions && db.subscriptions[x].status !in {Sub.Cancelled, Sub.Expired} && db.subscriptions[x].plan != newPlan
  {
  }

  // ---- What the delivery transaction does ----

  /** A delivery loses its payment exactly when that is no longer pending. */
  lemma LostExactlyWhen(db: Db, p: nat, succeeded: bool, read: Subscription, now: nat, graceUntil: nat)
    requires Deliverable(db, p)
    ensures Resolve(db, p, succeeded, read, now, graceUntil).Lost? <==> db.payments[p].status != Pending
  {
  }

  /** Exactly when a delivery on a pending payment is refused: the subscription it read cannot follow. */
  lemma RefusedExactlyWhen(db: Db, p: nat, succeeded: bool, read: Subscription, now: nat, graceUntil: nat)
    requires Deliverable(db, p) && db.payments[p].status == Pending
    ensures Resolve(db, p, succeeded, read, now, graceUntil).Refused?
      <==> if succeeded then Sub.Terminal(read.status) else Sub.Terminal(read.status) || read.status == Sub.Suspended
  {
    assert Sub.AllowedTransitions(Sub.Trial)[0] == Sub.AllowedTransitions(Sub.PastDue)[0]
        == Sub.AllowedTransitions(Sub.Suspended)[0] == Sub.Active;
    assert Sub.AllowedTransitions(Sub.Active)[0] == Sub.PastDue;
  }

  /**
   An applied success invoices its payment, and leaves the subscription active unless it read it active
   and found it otherwise; an applied failure issues nothing, leaves alone what it read on trial, and
   otherwise renews the grace, past due unless it read that and found another status. The log gains an
   event exactly when a status is written. No other row changes.
   */
  lemma AppliedEffects(db: Db, p: nat, succeeded: bool, read: Subscription, now: nat, graceUntil: nat)
    requires Deliverable(db, p) && Resolve(db, p, succeeded, read, now, graceUntil).Applied?
    ensures var db' := Resolve(db, p, succeeded, read, now, graceUntil).db;
      var x := db.payments[p].subscription.value;
      var (found, after) := (db.subscriptions[x], db'.subscriptions[x]);
      && db'.payments[p].status == StatusOf(succeeded)
      && (succeeded ==>
            && (after.status == Sub.Active <==> read.status != Sub.Active || found.status == Sub.Active)
            && after.renewal == (if read.status == Sub.Active then found.renewal else read.renewal)
            && db'.payments[p].paidAt == Some(now)
            && |db'.invoices| == |db.invoices| + 1 && db'.invoices[|db.invoices|].payment == p
            && db'.invoices[|db.invoices|].split.excludingTax + db'.invoices[|db.invoices|].split.vat == db.payments[p].amount)
      && (!succeeded ==> db'.invoices == db.invoices && db'.counter == db.counter && db'.payments[p].paidAt.None?)
      && (!succeeded && read.status == Sub.Trial ==> after == found && db'.events == db.events)
      && (!succeeded && read.status != Sub.Trial ==>
            && after.renewal == Some(graceUntil)
            && (after.status == Sub.PastDue <==> read.status != Sub.PastDue || found.status == Sub.PastDue))
      && after.plan == found.plan && after.trialEnd == found.trialEnd
      && (Writes(succeeded, read.status) <==> db'.events != db.events)
      && (forall y | y in db.subscriptions && y != x :: y in db'.subscriptions && db'.subscriptions[y] == db.subscriptions[y])
      && (forall q | q in db.payments && q != p :: q in db'.payments && db'.payments[q] == db.payments[q])
  {
    assert forall e: Event :: db.events + [e] != db.events by {
      assert forall e: Event :: |db.events + [e]| == |db.events| + 1;
    }
    assert db.events + [] == db.events;
  }

  /** On the subscription side it changes one row, and logs a permitted move from the status read if it writes one. */
  lemma AppliedLogs(db: Db, p: nat, succeeded: bool, read: Subscription, now: nat, graceUntil: nat)
    requires Deliverable(db, p) && Resolve(db, p, succeeded, read, now, graceUntil).Applied?
    ensures var (x, db') := (db.payments[p].subscription.value, Resolve(db, p, succeeded, read, now, graceUntil).db);
      && db'.subscriptions == db.subscriptions[x := Overwrite(db.subscriptions[x], read, succeeded, graceUntil)]
      && var (found, after) := (db.subscriptions[x], db'.subscriptions[x]);
         if Writes(succeeded, read.status) then
           && after.status == TargetStatus(succeeded, read.status).value && Sub.CanTransition(read.status, after.status)
           && db'.events == db.events + [Event(x, read.status, after.status, Some(read.plan), Some(read.plan))]
         else after.status == found.status && db'.events == db.events
  {
    assert db.events + [] == db.events;
  }

  /** On the payment side it changes one row, and issues the next invoice exactly for a success. */
  lemma AppliedPays(db: Db, p: nat, succeeded: bool, read: Subscription, now: nat, graceUntil: nat)
    requires Deliverable(db, p) && Resolve(db, p, succeeded, read, now, graceUntil).Applied?
    ensures var (x, db') := (db.payments[p].subscription.value, Resolve(db, p, succeeded, read, now, graceUntil).db);
      && db.payments[p].status == Pending
      && db'.payments == db.payments[p := db.payments[p].(status := StatusOf(succeeded), paidAt := if succeeded then Some(now) else None)]
      && db'.subscriptions.Keys == db.subscriptions.Keys
      && if succeeded then
           && db'.counter == db.counter + 1
           && db'.invoices == db.invoices + [Invoice(p, x, db.counter + 1, db.payments[p].amount,
                                                    Money.SplitInclusive(db.payments[p].amount, Money.PLATFORM_VAT_RATE))]
         else db'.counter == db.counter && db'.invoices == db.invoices
  {
  }

  // ---- The same transactions, step by step ----

  datatype Delivered = Committed | SwapLost | TransitionDenied | NumberHeld

  /** The tables, changed in place by the services. */
  class Store {
    var payments: map<nat, Payment>
    var subscriptions: map<nat, Subscription>
    var events: seq<Event>
    var invoices: seq<Invoice>
    var counter: nat

    function Rows(): (db: Db)
      reads this
    {
      Db(payments, subscriptions, events, invoices, counter)
    }

    constructor (db: Db)
      ensures Rows() == db
    {
      payments, subscriptions, events, invoices, counter :=
        db.payments, db.subscriptions, db.events, db.invoices, db.counter;
    }

    /** What the rows have become while somebody else had the database. */
    method Load(db: Db)
      modifies this
      ensures Rows() == db
    {
      payments, subscriptions, events, invoices, counter :=
        db.payments, db.subscriptions, db.events, db.invoices, db.counter;
    }

    method RecordConflict(p: nat, conflict: Conflict)
      requires p in payments
      modifies this`payments
      ensures Rows() == old(Rows()).(payments := old(payments)[p := old(payments)[p].(conflict := Some(conflict))])
    {
      payments := payments[p := payments[p].(conflict := Some(conflict))];
    }

    /** Numbers are unique across tenants: `numberFree` says that no other tenant holds the next one. */
    method GenerateForPayment(p: nat, x: nat, amount: nat, numberFree: bool) returns (ok: bool)
      modifies this`counter, this`invoices
      ensures ok == numberFree
      ensures Rows() == if ok then IssueInvoice(old(Rows()), p, x, amount) else old(Rows())
    {
      var savepoint := counter;
      counter := counter + 1;
      if !numberFree {
        counter := savepoint;
        return false;
      }
      var excludingTax := Money.RoundDiv(amount * 10_000, 11_800);
      var vat := amount - excludingTax;
      invoices := invoices + [Invoice(p, x, counter, amount, Money.Split(excludingTax, vat))];
      return true;
    }

    method ExpirePending(p: nat) returns (count: nat)
      modifies this`payments
      ensures (Rows(), count) == ExpireIfPending(old(Rows()), p)
    {
      if p in payments && payments[p].status == Pending {
        payments := payments[p := payments[p].(status := Expired)];
        return 1;
      }
      return 0;
    }

    /**
     The transaction of a delivery from its update of the subscription on; `read` is the subscription as
     it was read before, others having committed since. Losing the swap, a refused transition and a number
     that another tenant holds leave no trace.
     */
    method Deliver(p: nat, succeeded: bool, read: Subscription, now: nat, graceUntil: nat, numberFree: bool) returns (r: Delivered)
      requires Deliverable(Rows(), p)
      modifies this
      ensures match Resolve(old(Rows()), p, succeeded, read, now, graceUntil)
        case Lost => r == SwapLost && Rows() == old(Rows())
        case Refused(_, _) => r == TransitionDenied && Rows() == old(Rows())
        case Applied(db) =>
          if succeeded && !numberFree then r == NumberHeld && Rows() == old(Rows()) else r == Committed && Rows() == db
    {
      if payments[p].status != Pending {
        return SwapLost;
      }
      ghost var before := Rows();
      var savepoint := (payments, subscriptions, events);
      payments := payments[p := payments[p].(status := StatusOf(succeeded), paidAt := if succeeded then Some(now) else None)];
      var payment := payments[p];
      var x := payment.subscription.value;
      var target :=
        if succeeded then Some(Sub.Active)
        else if read.status == Sub.Trial then None
        else Some(Sub.PastDue);
      if target.Some? && read.status != target.value {
        if !Sub.CanTransition(read.status, target.value) {
          payments := savepoint.0;
          return TransitionDenied;
        }
        var renewal := if target.value == Sub.PastDue then Some(graceUntil) else read.renewal;
        subscriptions := subscriptions[x := subscriptions[x].(status := target.value, renewal := renewal)];
        events := events + [Event(x, read.status, target.value, Some(read.plan), Some(read.plan))];
      } else if target == Some(Sub.PastDue) {
        subscriptions := subscriptions[x := subscriptions[x].(renewal := Some(graceUntil))];
      } else {
        assert subscriptions == subscriptions[x := subscriptions[x]];
      }
      if succeeded {
        var ok := GenerateForPayment(p, x, payment.amount, numberFree);
        if !ok {
          payments, subscriptions, events := savepoint.0, savepoint.1, savepoint.2;
          assert Rows() == before;
          return NumberHeld;
        }
      }
      return Committed;
    }

    /** The hourly purge of pending payments, over the batch it read. */
    method ExpirePendingPayments(batch: seq<nat>) returns (expiredCount: nat)
      requires forall i, j | 0 <= i < j < |batch| :: batch[i] != batch[j]
      modifies this`payments
      ensures forall p :: p in payments <==> p in old(payments)
      ensures forall p | p in old(payments) ::
        payments[p] == if p in batch && old(payments)[p].status == Pending then old(payments)[p].(status := Expired)
                       else old(payments)[p]
      ensures expiredCount == |set p | p in batch && p in old(payments) && old(payments)[p].status == Pending|
    {
      expiredCount := 0;
      ghost var swapped: set<nat> := {};
      for i := 0 to |batch|
        invariant forall p :: p in payments <==> p in old(payments)
        invariant forall p | p in old(payments) ::
          payments[p] == if p in batch[..i] && old(payments)[p].status == Pending then old(payments)[p].(status := Expired)
                         else old(payments)[p]
        invariant swapped == set p | p in batch[..i] && p in old(payments) && old(payments)[p].status == Pending
        invariant expiredCount == |swapped|
      {
        assert batch[..i + 1] == batch[..i] + [batch[i]];
        assert batch[i] !in batch[..i];
        var count := ExpirePending(batch[i]);
        if count == 1 {
          swapped := swapped + {batch[i]};
          expiredCount := expiredCount + 1;
        }
      }
      assert batch[..|batch|] == batch;
    }

    /** One transition of the lifecycle job; writing its event is a second step, which may fail. */
    method Transition(x: nat, readStatus: Sub.Status, to: Sub.Status, eventWritten: bool) returns (moved: bool)
      modifies this`subscriptions, this`events
      ensures moved <==> Sub.CanTransition(readStatus, to) && MoveIfStill(old(Rows()), x, readStatus, to).1 == 1
      ensures !moved ==> Rows() == old(Rows())
      ensures moved ==>
        Rows() == MoveIfStill(old(Rows()), x, readStatus, to).0.(
          events := old(events) + if eventWritten then [Event(x, readStatus, to, None, None)] else [])
      ensures Sub.CanTransition(readStatus, to) ==> Rows() == PassStep(old(Rows()), x, readStatus, to, eventWritten)
    {
      if !Sub.CanTransition(readStatus, to) {
        return false;
      }
      if x !in subscriptions || subscriptions[x].status != readStatus {
        return false;
      }
      subscriptions := subscriptions[x := subscriptions[x].(status := to)];
      if eventWritten {
        events := events + [Event(x, readStatus, to, None, None)];
      }
      return true;
    }

    /**
     The lifecycle job over the batch it read: `written[i]` says whether the event of the `i`-th
     subscription could be written. One failure does not stop the others.
     */
    method TransitionBatch(batch: seq<nat>, from: Sub.Status, to: Sub.Status, written: seq<bool>)
      requires Sub.CanTransition(from, to) && |written| == |batch|
      modifies this`subscriptions, this`events
      ensures Rows() == RunPass(old(Rows()), batch, from, to, written)
    {
      hide PassStep, MoveIfStill;
      for i := 0 to |batch|
        invariant Rows() == RunPass(old(Rows()), batch[..i], from, to, written[..i])
      {
        assert batch[..i + 1][..i] == batch[..i] && written[..i + 1][..i] == written[..i];
        var moved := Transition(batch[i], from, to, written[i]);
      }
      assert batch[..|batch|] == batch && written[..|batch|] == written;
    }

    /** The service behind a plan change; `interim` is what the rows become between its read and its transaction. */
    method ChangePlanChecked(x: nat, newPlan: nat, planKnown: bool, interim: Db) returns (r: PlanChangeResult)
      requires x in subscriptions ==> x in interim.subscriptions
      modifies this
      ensures r == CheckPlanChange(old(Rows()), x, newPlan, planKnown)
      ensures Rows() == if r.PlanChanged? then ChangePlan(interim, x, old(subscriptions)[x], newPlan) else old(Rows())
    {
      if x !in subscriptions {
        return NoSubscriptionFound;
      }
      var read := subscriptions[x];
      if Sub.Terminal(read.status) {
        return SubscriptionIsTerminal;
      }
      if !planKnown {
        return PlanNotFound;
      }
      if read.plan == newPlan {
        return AlreadyOnPlan;
      }
      Load(interim);
      ChangeSubscriptionPlan(x, read, newPlan);
      return PlanChanged;
    }

    method ChangeSubscriptionPlan(x: nat, read: Subscription, newPlan: nat)
      requires x in subscriptions
      modifies this`subscriptions, this`events
      ensures Rows() == ChangePlan(old(Rows()), x, read, newPlan)
    {
      subscriptions := subscriptions[x := subscriptions[x].(plan := newPlan)];
      events := events + [Event(x, read.status, read.status, Some(read.plan), Some(newPlan))];
    }
  }
}
