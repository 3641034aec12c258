/**
 Any number of webhook deliveries, job passes and plan changes, interleaved at the points where the
 services really let go of the database: the outer read of a delivery, its expiry compare-and-swap,
 the re-read, the read of the subscription inside the transaction and its writes; the batch read of a job, each compare-and-swap, each event write;
 the read of a plan change and its transaction.
 */
module BillingRuns {
  import opened Wrappers
  import opened Billing
  import Sub = SubscriptionStatus

  datatype Outcome =
    | Processed
    | IgnoredAlreadyProcessed
    | StatusConflict
    | UnknownReference
    | PaymentExpired
    | AmountMismatch
    | NoSubscription
    | TransitionRefused
    | Crashed

  /** Where a delivery is. `Resolved` has committed and still has to record its audit and notify. */
  datatype Pc =
    | Received
    | Expiring
    | ReReading
    | Deciding(readStatus: PaymentStatus)
    | Committing
    | Writing(read: Subscription)
    | Resolved
    | Finished(outcome: Outcome)

  /**
   `overdue`, `committed` and `readAt` are history: the delivery read a payment past its date; it committed;
   the time of its outer read.
   */
  datatype Delivery = Delivery(notice: Notice, payment: Option<nat>, pc: Pc, overdue: bool, committed: bool, readAt: nat)

  /** A lifecycle pass: the batch still to visit, and the event of its last swap, not yet written. */
  datatype Pass = Pass(from: Sub.Status, to: Sub.Status, rest: seq<nat>, owed: Option<Event>)

  /** A plan change between its read and its transaction, or after it. */
  datatype PlanChange = PlanChange(subscription: nat, read: Subscription, newPlan: nat, written: bool)

  /**
   `lost` is history: events whose write failed after their swap had committed. So is `overwritten`: for
   each delivery that found another status than it had read and wrote over it, the step from one to the other.
   */
  datatype State = State(
    db: Db,
    clock: nat,
    deliveries: seq<Delivery>,
    passes: seq<Pass>,
    planChanges: seq<PlanChange>,
    lost: seq<Event>,
    overwritten: seq<Event>)

  const Initial := State(Db(map[], map[], [], [], 0), 0, [], [], [], [], [])

  const GRACE_PERIOD := 7 * 24 * 3_600_000

  datatype Action =
    | Tick(now: nat)
    | Subscribe(x: nat, plan: nat, trialEnd: nat)
    | OpenPayment(p: nat, payment: Payment)
    // a delivery, by number
    | Arrive(notice: Notice)
    | ReadPayment(d: nat, found: Option<nat>)
    | SwapExpired(d: nat)
    | ReadAgain(d: nat)
    | Decide(d: nat)
    | ReadSubscription(d: nat)
    | Commit(d: nat)
    | Report(d: nat)
    | Crash(d: nat)
    // the jobs
    | PurgePayment(p: nat)
    | ReadBatch(from: Sub.Status, to: Sub.Status, batch: seq<nat>)
    | SwapStatus(j: nat)
    | WriteEvent(j: nat, written: bool)
    // the administrator
    | ReadPlan(x: nat, newPlan: nat)
    | WritePlan(i: nat)

  predicate PastDate(payment: Payment, now: nat) {
    payment.expiresAt.Some? && payment.expiresAt.value < now
  }

  predicate InBatch(subscription: Subscription, from: Sub.Status, now: nat) {
    && subscription.status == from
    && if from == Sub.Trial then subscription.trialEnd.Some? && subscription.trialEnd.value < now
       else subscription.renewal.Some? && subscription.renewal.value < now
  }

  /** The two transitions the lifecycle job makes. */
  predicate JobTransition(from: Sub.Status, to: Sub.Status) {
    (from == Sub.Trial && to == Sub.Expired) || (from == Sub.PastDue && to == Sub.Suspended)
  }

  /** The answer of the look-up by reference. */
  predicate IsLookup(db: Db, reference: string, found: Option<nat>) {
    match found
    case Some(p) => p in db.payments && db.payments[p].reference == reference
    case None => forall p | p in db.payments :: db.payments[p].reference != reference
  }

  predicate At(s: State, d: nat, pc: Pc) {
    d < |s.deliveries| && s.deliveries[d].pc == pc
    && s.deliveries[d].payment.Some? && s.deliveries[d].payment.value in s.db.payments
  }

  predicate Enabled(s: State, a: Action) {
    match a
    case Tick(now) => now >= s.clock
    case Subscribe(x, _, _) => x !in s.db.subscriptions
    case OpenPayment(p, payment) =>
      && p !in s.db.payments && payment.status == Pending && payment.conflict.None?
      && (payment.subscription.Some? ==> payment.subscription.value in s.db.subscriptions)
      && forall q | q in s.db.payments :: s.db.payments[q].reference != payment.reference
    case Arrive(_) => true
    case ReadPayment(d, found) =>
      && d < |s.deliveries| && s.deliveries[d].pc == Received
      && IsLookup(s.db, s.deliveries[d].notice.reference, found)
    case SwapExpired(d) => At(s, d, Expiring)
    case ReadAgain(d) => At(s, d, ReReading)
    case Decide(d) => d < |s.deliveries| && s.deliveries[d].pc.Deciding? && At(s, d, s.deliveries[d].pc)
    case ReadSubscription(d) => At(s, d, Committing) && Deliverable(s.db, s.deliveries[d].payment.value)
    case Commit(d) =>
      d < |s.deliveries| && s.deliveries[d].pc.Writing? && s.deliveries[d].payment.Some?
      && Deliverable(s.db, s.deliveries[d].payment.value)
    case Report(d) => At(s, d, Resolved)
    case Crash(d) => d < |s.deliveries| && !s.deliveries[d].pc.Finished?
    case PurgePayment(p) => p in s.db.payments && PastDate(s.db.payments[p], s.clock)
    case ReadBatch(from, to, batch) =>
      && JobTransition(from, to)
      && forall x | x in batch :: x in s.db.subscriptions && InBatch(s.db.subscriptions[x], from, s.clock)
    case SwapStatus(j) => j < |s.passes| && s.passes[j].rest != [] && s.passes[j].owed.None?
    case WriteEvent(j, _) => j < |s.passes| && s.passes[j].owed.Some?
    case ReadPlan(x, newPlan) => CheckPlanChange(s.db, x, newPlan, true).PlanChanged?
    case WritePlan(i) => i < |s.planChanges| && !s.planChanges[i].written && s.planChanges[i].subscription in s.db.subscriptions
  }

  function Move(s: State, d: nat, delivery: Delivery): State
    requires d < |s.deliveries|
  {
    s.(deliveries := s.deliveries[d := delivery])
  }

  /** What a delivery does after it has read a payment, on nothing but the row it read. */
  function Judge(delivery: Delivery, payment: Payment): Delivery {
    if payment.status != Pending then
      if payment.status == StatusOf(delivery.notice.succeeded) then delivery.(pc := Finished(IgnoredAlreadyProcessed))
      else delivery.(pc := Deciding(payment.status))
    else if payment.amount != delivery.notice.amount || payment.currency != delivery.notice.currency then
      delivery.(pc := Finished(AmountMismatch))
    else if payment.subscription.None? then delivery.(pc := Finished(NoSubscription))
    else delivery.(pc := Committing)
  }

  /** The subscription that a delivery between its read and its writes is about. */
  function Found(s: State, d: nat): Subscription
    requires d < |s.deliveries| && s.deliveries[d].payment.Some? && Deliverable(s.db, s.deliveries[d].payment.value)
  {
    s.db.subscriptions[s.db.payments[s.deliveries[d].payment.value].subscription.value]
  }

  /**
   The transaction takes its payment first, by a conditional update; that the update is a step with the
   writes here changes nothing, since it keeps others from the payment until the commit.
   */
  function Attempt(s: State, d: nat): Verdict
    requires Enabled(s, Commit(d))
  {
    var delivery := s.deliveries[d];
    Resolve(s.db, delivery.payment.value, delivery.notice.succeeded, delivery.pc.read, s.clock, s.clock + GRACE_PERIOD)
  }

  /** The delivery writes a status, over another one than it has read. */
  predicate Overtaken(s: State, d: nat)
    requires Enabled(s, Commit(d))
  {
    Writes(s.deliveries[d].notice.succeeded, s.deliveries[d].pc.read.status)
    && Found(s, d).status != s.deliveries[d].pc.read.status
  }

  function OverwrittenBy(s: State, d: nat): seq<Event>
    requires Enabled(s, Commit(d))
  {
    if Overtaken(s, d) then
      [Event(s.db.payments[s.deliveries[d].payment.value].subscription.value, Found(s, d).status, s.deliveries[d].pc.read.status, None, None)]
    else []
  }

  /** The loser of the swap reports a replay, whatever the winner reported; a refusal leaves no trace. */
  function AfterCommit(s: State, d: nat, verdict: Verdict): State
    requires Enabled(s, Commit(d))
  {
    match verdict
    case Lost => Move(s, d, s.deliveries[d].(pc := Finished(IgnoredAlreadyProcessed)))
    case Refused(_, _) => Move(s, d, s.deliveries[d].(pc := Finished(TransitionRefused)))
    case Applied(db) =>
      Move(s, d, s.deliveries[d].(pc := Resolved, committed := true)).(
        db := db, overwritten := s.overwritten + OverwrittenBy(s, d))
  }

  function StepDelivery(s: State, a: Action): State
    requires Enabled(s, a)
    requires a.ReadPayment? || a.SwapExpired? || a.ReadAgain? || a.Decide? || a.ReadSubscription? || a.Commit? || a.Report? || a.Crash?
  {
    var delivery := s.deliveries[a.d];
    match a
    case ReadPayment(d, None) => Move(s, d, delivery.(pc := Finished(UnknownReference)))
    case ReadPayment(d, Some(p)) =>
      var payment := s.db.payments[p];
      if payment.status == Pending && PastDate(payment, s.clock) then
        Move(s, d, delivery.(payment := Some(p), pc := Expiring, overdue := true, readAt := s.clock))
      else Move(s, d, Judge(delivery.(payment := Some(p), readAt := s.clock), payment))
    case SwapExpired(d) =>
      var (db, count) := ExpireIfPending(s.db, delivery.payment.value);
      Move(s, d, delivery.(pc := if count == 1 then Finished(PaymentExpired) else ReReading)).(db := db)
    case ReadAgain(d) => Move(s, d, Judge(delivery, s.db.payments[delivery.payment.value]))
    case Decide(d) =>
      // the anomaly is recorded on the payment, whose status is left alone
      var p := delivery.payment.value;
      var conflict := Conflict(StatusOf(delivery.notice.succeeded), delivery.pc.readStatus);
      Move(s, d, delivery.(pc := Finished(StatusConflict))).(
        db := s.db.(payments := s.db.payments[p := s.db.payments[p].(conflict := Some(conflict))]))
    case ReadSubscription(d) => Move(s, d, delivery.(pc := Writing(Found(s, d))))
    case Commit(d) => AfterCommit(s, d, Attempt(s, d))
    case Report(d) => Move(s, d, delivery.(pc := Finished(Processed)))
    case Crash(d) => Move(s, d, delivery.(pc := Finished(Crashed)))
  }

  function StepJob(s: State, a: Action): State
    requires Enabled(s, a) && (a.SwapStatus? || a.WriteEvent?)
  {
    var pass := s.passes[a.j];
    match a
    case SwapStatus(j) =>
      var x := pass.rest[0];
      var (db, count) := MoveIfStill(s.db, x, pass.from, pass.to);
      s.(db := db, passes := s.passes[j := pass.(
        rest := pass.rest[1..],
        owed := if count == 1 then Some(Event(x, pass.from, pass.to, None, None)) else None)])
    case WriteEvent(j, written) =>
      var s' := s.(passes := s.passes[j := pass.(owed := None)]);
      if written then s'.(db := s.db.(events := s.db.events + [pass.owed.value]))
      else s'.(lost := s.lost + [pass.owed.value])
  }

  function Step(s: State, a: Action): State
    requires Enabled(s, a)
  {
    match a
    case Tick(now) => s.(clock := now)
    case Subscribe(x, plan, trialEnd) =>
      s.(db := s.db.(subscriptions := s.db.subscriptions[x := Subscription(Sub.Trial, plan, Some(trialEnd), None)]))
    case OpenPayment(p, payment) => s.(db := s.db.(payments := s.db.payments[p := payment]))
    case Arrive(notice) => s.(deliveries := s.deliveries + [Delivery(notice, None, Received, false, false, 0)])
    case PurgePayment(p) => s.(db := ExpireIfPending(s.db, p).0)
    case ReadBatch(from, to, batch) => s.(passes := s.passes + [Pass(from, to, batch, None)])
    case SwapStatus(_) => StepJob(s, a)
    case WriteEvent(_, _) => StepJob(s, a)
    case ReadPlan(x, newPlan) => s.(planChanges := s.planChanges + [PlanChange(x, s.db.subscriptions[x], newPlan, false)])
    case WritePlan(i) =>
      var change := s.planChanges[i];
      s.(db := ChangePlan(s.db, change.subscription, change.read, change.newPlan),
         planChanges := s.planChanges[i := change.(written := true)])
    case _ => StepDelivery(s, a)
  }

  ghost predicate Next(s: State, s': State) {
    exists a :: Enabled(s, a) && Step(s, a) == s'
  }

  ghost predicate IsRun(run: seq<State>) {
    run != [] && run[0] == Initial && forall i | 0 <= i < |run| - 1 :: Next(run[i], run[i + 1])
  }

  // ---- The payment side ----

  /** Payments are never lost, never re-keyed, and leave PENDING for good. */
  ghost predicate PaymentsEvolve(db: Db, db': Db) {
    && (forall x | x in db.subscriptions :: x in db'.subscriptions)
    && forall p | p in db.payments ::
      && p in db'.payments
      && db'.payments[p].reference == db.payments[p].reference
      && db'.payments[p].subscription == db.payments[p].subscription
      && db'.payments[p].amount == db.payments[p].amount
      && db'.payments[p].expiresAt == db.payments[p].expiresAt
      && (db.payments[p].status != Pending ==> db'.payments[p].status == db.payments[p].status)
  }

  ghost predicate PaymentsOk(db: Db) {
    && (forall p | p in db.payments :: db.payments[p].subscription.Some? ==> db.payments[p].subscription.value in db.subscriptions)
    && (forall p, q | p in db.payments && q in db.payments && p != q :: db.payments[p].reference != db.payments[q].reference)
    && (forall p | p in db.payments :: db.payments[p].status != Refunded)
  }

  /** A delivery that read a payment past its date is on the rejection path and stays there. */
  ghost predicate DeliveryOk(db: Db, d: Delivery) {
    && (d.payment.Some? ==>
          d.payment.value in db.payments && db.payments[d.payment.value].reference == d.notice.reference)
    && (d.payment.None? ==> d.pc == Received || d.pc.Finished?)
    && (d.pc == Received ==> !d.overdue)
    && (d.pc == Expiring ==> d.overdue)
    && (d.pc == ReReading ==> d.overdue && db.payments[d.payment.value].status != Pending)
    && (d.pc == Committing || d.pc.Writing? ==> !d.overdue && !d.committed && d.payment.Some? && db.payments[d.payment.value].subscription.Some?)
    && (d.pc.Deciding? ==>
          && db.payments[d.payment.value].status == d.pc.readStatus != Pending
          && d.pc.readStatus != StatusOf(d.notice.succeeded))
    && (d.committed ==>
          && d.payment.Some? && !d.overdue
          && (d.pc == Resolved || d.pc == Finished(Processed) || d.pc == Finished(Crashed))
          && db.payments[d.payment.value].status == StatusOf(d.notice.succeeded))
    && (d.pc == Resolved || d.pc == Finished(Processed) ==> d.committed)
    && (d.overdue && d.pc.Finished? ==>
          d.pc.outcome in {PaymentExpired, IgnoredAlreadyProcessed, StatusConflict, Crashed})
  }

  lemma DeliveryStays(db: Db, db': Db, d: Delivery)
    requires DeliveryOk(db, d) && PaymentsEvolve(db, db')
    ensures DeliveryOk(db', d)
  {
  }

  ghost predicate CommittedOn(s: State, d: nat, p: nat) {
    d < |s.deliveries| && s.deliveries[d].committed && s.deliveries[d].payment == Some(p)
  }

  /** A payment is resolved by exactly one delivery. */
  ghost predicate OneResolver(s: State) {
    && (forall p, d: nat, e: nat | CommittedOn(s, d, p) && CommittedOn(s, e, p) :: d == e)
    && (forall p | p in s.db.payments && (s.db.payments[p].status == Succeeded || s.db.payments[p].status == Failed) ::
          exists d: nat :: CommittedOn(s, d, p))
  }

  function InvoicesOf(invoices: seq<Invoice>, p: nat): nat {
    if invoices == [] then 0
    else InvoicesOf(invoices[..|invoices| - 1], p) + if invoices[|invoices| - 1].payment == p then 1 else 0
  }

  ghost predicate InvoicesOk(db: Db) {
    && db.counter == |db.invoices|
    && (forall i | 0 <= i < |db.invoices| :: db.invoices[i].number == i + 1)
    && (forall i | 0 <= i < |db.invoices| ::
          var invoice := db.invoices[i];
          && invoice.payment in db.payments
          && invoice.amount == db.payments[invoice.payment].amount
          && db.payments[invoice.payment].subscription == Some(invoice.subscription)
          && invoice.split.excludingTax + invoice.split.vat == invoice.amount)
    && (forall p: nat :: InvoicesOf(db.invoices, p) == if p in db.payments && db.payments[p].status == Succeeded then 1 else 0)
  }

  ghost predicate PaySide(s: State) {
    && PaymentsOk(s.db)
    && (forall d | 0 <= d < |s.deliveries| :: DeliveryOk(s.db, s.deliveries[d]))
    && OneResolver(s)
    && InvoicesOk(s.db)
  }

  lemma InvoiceAdded(invoices: seq<Invoice>, invoice: Invoice, p: nat)
    ensures InvoicesOf(invoices + [invoice], p) == InvoicesOf(invoices, p) + if invoice.payment == p then 1 else 0
  {
    assert (invoices + [invoice])[..|invoices|] == invoices;
  }

  /** Steps that resolve no payment: at most one delivery moves on, uncommitted. */
  lemma QuietStep(s: State, s': State)
    requires PaySide(s) && PaymentsEvolve(s.db, s'.db) && PaymentsOk(s'.db)
    requires s'.db.invoices == s.db.invoices && s'.db.counter == s.db.counter
    requires forall p | p in s'.db.payments :: s'.db.payments[p].status in {Succeeded, Failed} ==>
      p in s.db.payments && s.db.payments[p].status == s'.db.payments[p].status
    requires |s.deliveries| <= |s'.deliveries|
    requires forall d | 0 <= d < |s.deliveries| ::
      && s'.deliveries[d].committed == s.deliveries[d].committed
      && (s.deliveries[d].committed ==> s'.deliveries[d].payment == s.deliveries[d].payment)
      && (s'.deliveries[d] == s.deliveries[d] || DeliveryOk(s'.db, s'.deliveries[d]))
    requires forall d | |s.deliveries| <= d < |s'.deliveries| ::
      !s'.deliveries[d].committed && DeliveryOk(s'.db, s'.deliveries[d])
    ensures PaySide(s')
  {
    forall d | 0 <= d < |s'.deliveries|
      ensures DeliveryOk(s'.db, s'.deliveries[d])
    {
      if d < |s.deliveries| && s'.deliveries[d] == s.deliveries[d] {
        DeliveryStays(s.db, s'.db, s.deliveries[d]);
      }
    }
    assert forall p, d: nat :: CommittedOn(s', d, p) <==> CommittedOn(s, d, p);
  }

  lemma JudgeOk(db: Db, d: Delivery)
    requires d.payment.Some? && d.payment.value in db.payments && !d.committed
    requires db.payments[d.payment.value].reference == d.notice.reference
    requires d.overdue ==> db.payments[d.payment.value].status != Pending
    ensures DeliveryOk(db, Judge(d, db.payments[d.payment.value])) && !Judge(d, db.payments[d.payment.value]).committed
  {
  }

  lemma ExpireEvolves(db: Db, p: nat)
    requires PaymentsOk(db)
    ensures var (db', count) := ExpireIfPending(db, p);
      && PaymentsEvolve(db, db') && PaymentsOk(db')
      && (count == 0 || count == 1)
      && (count == 0 && p in db.payments ==> db.payments[p].status != Pending)
  {
  }

  /** One delivery moves on without resolving anything. */
  lemma QuietMove(s: State, d: nat, delivery: Delivery, db: Db)
    requires PaySide(s) && d < |s.deliveries| && PaymentsEvolve(s.db, db) && PaymentsOk(db)
    requires db.invoices == s.db.invoices && db.counter == s.db.counter
    requires forall p | p in db.payments :: db.payments[p].status in {Succeeded, Failed} ==>
      p in s.db.payments && s.db.payments[p].status == db.payments[p].status
    requires DeliveryOk(db, delivery) && delivery.committed == s.deliveries[d].committed
    requires delivery.committed ==> delivery.payment == s.deliveries[d].payment
    ensures PaySide(Move(s, d, delivery).(db := db))
  {
    QuietStep(s, Move(s, d, delivery).(db := db));
  }

  lemma ReadKeepsPaySide(s: State, d: nat, found: Option<nat>)
    requires PaySide(s) && Enabled(s, ReadPayment(d, found))
    ensures PaySide(Step(s, ReadPayment(d, found)))
  {
    var delivery := s.deliveries[d];
    assert DeliveryOk(s.db, delivery);
    if found.Some? && !(s.db.payments[found.value].status == Pending && PastDate(s.db.payments[found.value], s.clock)) {
      JudgeOk(s.db, delivery.(payment := found, readAt := s.clock));
    }
    QuietMove(s, d, Step(s, ReadPayment(d, found)).deliveries[d], s.db);
  }

  lemma SwapKeepsPaySide(s: State, d: nat)
    requires PaySide(s) && Enabled(s, SwapExpired(d))
    ensures PaySide(Step(s, SwapExpired(d)))
  {
    var s', delivery := Step(s, SwapExpired(d)), s.deliveries[d];
    assert DeliveryOk(s.db, delivery);
    ExpireEvolves(s.db, delivery.payment.value);
    QuietMove(s, d, s'.deliveries[d], s'.db);
  }

  /** Recording a conflict changes no status, reference or amount. */
  lemma ConflictEvolves(db: Db, p: nat, conflict: Conflict)
    requires PaymentsOk(db) && p in db.payments
    ensures var payment := db.payments[p].(conflict := Some(conflict));
      var db' := db.(payments := db.payments[p := payment]);
      PaymentsEvolve(db, db') && PaymentsOk(db') && db'.payments[p] == payment
  {
  }

  lemma DecideKeepsPaySide(s: State, d: nat)
    requires PaySide(s) && Enabled(s, Decide(d))
    ensures PaySide(Step(s, Decide(d)))
  {
    var s', delivery := Step(s, Decide(d)), s.deliveries[d];
    assert DeliveryOk(s.db, delivery);
    ConflictEvolves(s.db, delivery.payment.value, Conflict(StatusOf(delivery.notice.succeeded), delivery.pc.readStatus));
    QuietMove(s, d, s'.deliveries[d], s'.db);
  }

  lemma DeliveryKeepsPaySide(s: State, a: Action)
    requires PaySide(s) && Enabled(s, a) && (a.ReadAgain? || a.ReadSubscription? || a.Report? || a.Crash?)
    ensures PaySide(Step(s, a))
  {
    var delivery := s.deliveries[a.d];
    assert DeliveryOk(s.db, delivery);
    if a.ReadAgain? {
      JudgeOk(s.db, delivery);
    }
    QuietMove(s, a.d, Step(s, a).deliveries[a.d], s.db);
  }

  /** What an applied transaction does to the payments: one of them leaves PENDING. */
  lemma ResolveEvolves(db: Db, p: nat, succeeded: bool, read: Subscription, now: nat, graceUntil: nat)
    requires PaymentsOk(db) && Deliverable(db, p) && Resolve(db, p, succeeded, read, now, graceUntil).Applied?
    ensures var db' := Resolve(db, p, succeeded, read, now, graceUntil).db;
      && PaymentsEvolve(db, db') && PaymentsOk(db')
      && db.payments[p].status == Pending && db'.payments[p].status == StatusOf(succeeded)
      && db'.payments.Keys == db.payments.Keys
      && forall q | q in db.payments && q != p :: db'.payments[q] == db.payments[q]
  {
    hide Resolve;
    AppliedPays(db, p, succeeded, read, now, graceUntil);
  }

  lemma ResolveKeepsInvoices(db: Db, p: nat, succeeded: bool, read: Subscription, now: nat, graceUntil: nat)
    requires PaymentsOk(db) && InvoicesOk(db)
    requires Deliverable(db, p) && Resolve(db, p, succeeded, read, now, graceUntil).Applied?
    ensures InvoicesOk(Resolve(db, p, succeeded, read, now, graceUntil).db)
  {
    hide Resolve;
    AppliedPays(db, p, succeeded, read, now, graceUntil);
    var db' := Resolve(db, p, succeeded, read, now, graceUntil).db;
    if succeeded {
      var invoice := db'.invoices[|db.invoices|];
      assert db'.invoices == db.invoices + [invoice];
      forall q: nat
        ensures InvoicesOf(db'.invoices, q) == InvoicesOf(db.invoices, q) + if p == q then 1 else 0
      {
        InvoiceAdded(db.invoices, invoice, q);
      }
    } else {
      assert db'.invoices == db.invoices && db'.counter == db.counter;
    }
  }

  /** The delivery that resolves a pending payment becomes its one resolver. */
  lemma ResolverAdded(s: State, s': State, d: nat, p: nat)
    requires PaySide(s) && d < |s.deliveries| && s.deliveries[d].payment == Some(p) && !s.deliveries[d].committed
    requires p in s.db.payments && s.db.payments[p].status == Pending
    requires s'.deliveries == s.deliveries[d := s.deliveries[d].(pc := Resolved, committed := true)]
    requires forall q | q in s'.db.payments && q != p :: q in s.db.payments && s'.db.payments[q] == s.db.payments[q]
    ensures OneResolver(s')
  {
    forall e: nat
      ensures !CommittedOn(s, e, p)
    {
      if e < |s.deliveries| {
        assert DeliveryOk(s.db, s.deliveries[e]);
      }
    }
    assert CommittedOn(s', d, p);
    assert forall q, e: nat :: CommittedOn(s', e, q) <==> (e == d && q == p) || CommittedOn(s, e, q);
  }

  lemma AppliedKeepsPaySide(s: State, d: nat, p: nat, db: Db)
    requires PaySide(s) && d < |s.deliveries| && s.deliveries[d].payment == Some(p) && Enabled(s, Commit(d))
    requires PaymentsEvolve(s.db, db) && PaymentsOk(db) && InvoicesOk(db) && p in s.db.payments
    requires s.db.payments[p].status == Pending && db.payments[p].status == StatusOf(s.deliveries[d].notice.succeeded)
    requires db.payments.Keys == s.db.payments.Keys
    requires forall q | q in s.db.payments && q != p :: db.payments[q] == s.db.payments[q]
    ensures PaySide(AfterCommit(s, d, Applied(db)))
  {
    var s' := AfterCommit(s, d, Applied(db));
    assert DeliveryOk(s.db, s.deliveries[d]);
    ResolverAdded(s, s', d, p);
    DeliveriesStay(s, s', d);
  }

  lemma TurnedDownKeepsPaySide(s: State, d: nat, verdict: Verdict)
    requires PaySide(s) && Enabled(s, Commit(d)) && !verdict.Applied?
    ensures PaySide(AfterCommit(s, d, verdict))
  {
    assert DeliveryOk(s.db, s.deliveries[d]);
    QuietMove(s, d, AfterCommit(s, d, verdict).deliveries[d], s.db);
  }

  lemma CommitKeepsPaySide(s: State, d: nat)
    requires PaySide(s) && Enabled(s, Commit(d))
    ensures PaySide(AfterCommit(s, d, Attempt(s, d)))
  {
    hide Resolve, InvoicesOk, OneResolver, DeliveryOk, AfterCommit;
    var delivery := s.deliveries[d];
    var p := delivery.payment.value;
    var verdict := Attempt(s, d);
    if !verdict.Applied? {
      TurnedDownKeepsPaySide(s, d, verdict);
    } else {
      ResolveEvolves(s.db, p, delivery.notice.succeeded, delivery.pc.read, s.clock, s.clock + GRACE_PERIOD);
      ResolveKeepsInvoices(s.db, p, delivery.notice.succeeded, delivery.pc.read, s.clock, s.clock + GRACE_PERIOD);
      AppliedKeepsPaySide(s, d, p, verdict.db);
    }
  }

  lemma DeliveriesStay(s: State, s': State, d: nat)
    requires PaySide(s) && PaymentsEvolve(s.db, s'.db) && d < |s.deliveries|
    requires |s'.deliveries| == |s.deliveries| && s'.deliveries == s.deliveries[d := s'.deliveries[d]]
    requires DeliveryOk(s'.db, s'.deliveries[d])
    ensures forall e | 0 <= e < |s'.deliveries| :: DeliveryOk(s'.db, s'.deliveries[e])
  {
    forall e | 0 <= e < |s'.deliveries|
      ensures DeliveryOk(s'.db, s'.deliveries[e])
    {
      if e != d {
        DeliveryStays(s.db, s'.db, s.deliveries[e]);
      }
    }
  }

  predicate TouchesPayments(a: Action) {
    a.ReadPayment? || a.SwapExpired? || a.ReadAgain? || a.Decide? || a.ReadSubscription? || a.Commit? || a.Report? || a.Crash?
    || a.OpenPayment? || a.PurgePayment?
  }

  /** The steps of the subscription side leave payments, invoices and deliveries in flight alone. */
  lemma OtherSteps(s: State, a: Action)
    requires Enabled(s, a) && !TouchesPayments(a)
    ensures var s' := Step(s, a);
      && s'.db.payments == s.db.payments && s'.db.invoices == s.db.invoices && s'.db.counter == s.db.counter
      && (forall x | x in s.db.subscriptions :: x in s'.db.subscriptions)
      && (s'.deliveries == s.deliveries
          || exists notice :: s'.deliveries == s.deliveries + [Delivery(notice, None, Received, false, false, 0)])
  {
  }

  lemma StepKeepsPaySide(s: State, a: Action)
    requires PaySide(s) && Enabled(s, a)
    ensures PaySide(Step(s, a))
  {
    if !TouchesPayments(a) {
      OtherSteps(s, a);
      QuietStep(s, Step(s, a));
    } else {
      match a
      case ReadPayment(d, found) => ReadKeepsPaySide(s, d, found);
      case SwapExpired(d) => SwapKeepsPaySide(s, d);
      case ReadAgain(_) => DeliveryKeepsPaySide(s, a);
      case ReadSubscription(_) => DeliveryKeepsPaySide(s, a);
      case Decide(d) => DecideKeepsPaySide(s, d);
      case Report(_) => DeliveryKeepsPaySide(s, a);
      case Crash(_) => DeliveryKeepsPaySide(s, a);
      case Commit(d) => CommitKeepsPaySide(s, d);
      case OpenPayment(p, payment) => OpenKeepsPaySide(s, p, payment);
      case PurgePayment(p) => PurgeKeepsPaySide(s, p);
    }
  }

  lemma PurgeKeepsPaySide(s: State, p: nat)
    requires PaySide(s) && Enabled(s, PurgePayment(p))
    ensures PaySide(Step(s, PurgePayment(p)))
  {
    ExpireEvolves(s.db, p);
    QuietStep(s, Step(s, PurgePayment(p)));
  }

  lemma OpenKeepsPaySide(s: State, p: nat, payment: Payment)
    requires PaySide(s) && Enabled(s, OpenPayment(p, payment))
    ensures PaySide(Step(s, OpenPayment(p, payment)))
  {
    var s' := Step(s, OpenPayment(p, payment));
    assert PaymentsOk(s'.db);
    QuietStep(s, s');
  }

  lemma {:induction false} RunKeepsPaySide(run: seq<State>, i: nat)
    requires IsRun(run) && i < |run|
    ensures PaySide(run[i])
  {
    if i == 0 {
    } else {
      RunKeepsPaySide(run, i - 1);
      assert Next(run[i - 1], run[i - 1 + 1]);
      var a :| Enabled(run[i - 1], a) && Step(run[i - 1], a) == run[i];
      StepKeepsPaySide(run[i - 1], a);
    }
  }

  // ---- What every run guarantees about payments ----

  /** The steps in which a delivery only moves on leave the rows alone. */
  lemma MemorySteps(s: State, a: Action)
    requires Enabled(s, a) && (a.ReadPayment? || a.ReadAgain? || a.ReadSubscription? || a.Report? || a.Crash?)
    ensures PaymentsEvolve(s.db, Step(s, a).db)
  {
    hide Judge;
    assert Step(s, a).db == s.db;
  }

  lemma OtherEvolves(s: State, a: Action)
    requires Enabled(s, a) && !TouchesPayments(a)
    ensures PaymentsEvolve(s.db, Step(s, a).db)
  {
    hide Step, Enabled;
    OtherSteps(s, a);
  }

  lemma OpenEvolves(s: State, p: nat, payment: Payment)
    requires Enabled(s, OpenPayment(p, payment))
    ensures PaymentsEvolve(s.db, Step(s, OpenPayment(p, payment)).db)
  {
  }

  lemma SwapEvolves(s: State, d: nat)
    requires PaySide(s) && Enabled(s, SwapExpired(d))
    ensures PaymentsEvolve(s.db, Step(s, SwapExpired(d)).db)
  {
    ExpireEvolves(s.db, s.deliveries[d].payment.value);
  }

  lemma PurgeEvolves(s: State, p: nat)
    requires PaySide(s) && Enabled(s, PurgePayment(p))
    ensures PaymentsEvolve(s.db, Step(s, PurgePayment(p)).db)
  {
    ExpireEvolves(s.db, p);
  }

  lemma DecideEvolves(s: State, d: nat)
    requires PaySide(s) && Enabled(s, Decide(d))
    ensures PaymentsEvolve(s.db, Step(s, Decide(d)).db)
  {
    var delivery := s.deliveries[d];
    ConflictEvolves(s.db, delivery.payment.value, Conflict(StatusOf(delivery.notice.succeeded), delivery.pc.readStatus));
  }

  lemma StepEvolves(s: State, a: Action)
    requires PaySide(s) && Enabled(s, a)
    ensures PaymentsEvolve(s.db, Step(s, a).db)
  {
    hide PaySide, PaymentsEvolve;
    match a
    case Commit(d) => CommitEvolves(s, d);
    case SwapExpired(d) => SwapEvolves(s, d);
    case PurgePayment(p) => PurgeEvolves(s, p);
    case Decide(d) => DecideEvolves(s, d);
    case OpenPayment(p, payment) => OpenEvolves(s, p, payment);
    case ReadPayment(_, _) => MemorySteps(s, a);
    case ReadAgain(_) => MemorySteps(s, a);
    case ReadSubscription(_) => MemorySteps(s, a);
    case Report(_) => MemorySteps(s, a);
    case Crash(_) => MemorySteps(s, a);
    case _ => OtherEvolves(s, a);
  }

  lemma CommitEvolves(s: State, d: nat)
    requires PaySide(s) && Enabled(s, Commit(d))
    ensures PaymentsEvolve(s.db, AfterCommit(s, d, Attempt(s, d)).db)
  {
    hide Resolve;
    var delivery := s.deliveries[d];
    if Attempt(s, d).Applied? {
      ResolveEvolves(s.db, delivery.payment.value, delivery.notice.succeeded, delivery.pc.read, s.clock, s.clock + GRACE_PERIOD);
    }
  }

  /** A payment leaves PENDING at most once and never comes back: its next status is its last. */
  lemma {:induction false} ResolvedForGood(run: seq<State>, i: nat, j: nat, p: nat)
    requires IsRun(run) && i <= j < |run| && p in run[i].db.payments
    ensures p in run[j].db.payments
    ensures run[i].db.payments[p].status != Pending ==> run[j].db.payments[p].status == run[i].db.payments[p].status
    ensures run[j].db.payments[p].expiresAt == run[i].db.payments[p].expiresAt
  {
    if i == j {
    } else {
      ResolvedForGood(run, i, j - 1, p);
      RunKeepsPaySide(run, j - 1);
      assert Next(run[j - 1], run[j - 1 + 1]);
      var a :| Enabled(run[j - 1], a) && Step(run[j - 1], a) == run[j];
      StepEvolves(run[j - 1], a);
    }
  }

  /** However many deliveries of one payment are in flight, at most one reports that it processed it. */
  lemma OneDeliveryProcesses(run: seq<State>, i: nat, d: nat, e: nat)
    requires IsRun(run) && i < |run| && d < e < |run[i].deliveries|
    requires run[i].deliveries[d].pc == Finished(Processed) && run[i].deliveries[e].pc == Finished(Processed)
    ensures run[i].deliveries[d].notice.reference != run[i].deliveries[e].notice.reference
  {
    RunKeepsPaySide(run, i);
    var s := run[i];
    assert DeliveryOk(s.db, s.deliveries[d]) && DeliveryOk(s.db, s.deliveries[e]);
    assert CommittedOn(s, d, s.deliveries[d].payment.value) && CommittedOn(s, e, s.deliveries[e].payment.value);
  }

  /**
   A payment is succeeded or failed exactly when one delivery has committed that outcome; it has an
   invoice exactly when it succeeded, and then exactly one, for its amount.
   */
  lemma InvoicedExactlyWhenSucceeded(run: seq<State>, i: nat, p: nat)
    requires IsRun(run) && i < |run| && p in run[i].db.payments
    ensures var s := run[i];
      && InvoicesOf(s.db.invoices, p) == (if s.db.payments[p].status == Succeeded then 1 else 0)
      && (s.db.payments[p].status in {Succeeded, Failed} <==> exists d: nat :: CommittedOn(s, d, p))
      && (forall d: nat | CommittedOn(s, d, p) :: s.db.payments[p].status == StatusOf(s.deliveries[d].notice.succeeded))
      && (forall k | 0 <= k < |s.db.invoices| && s.db.invoices[k].payment == p :: s.db.invoices[k].amount == s.db.payments[p].amount)
  {
    RunKeepsPaySide(run, i);
    var s := run[i];
    forall d: nat | CommittedOn(s, d, p)
      ensures s.db.payments[p].status == StatusOf(s.deliveries[d].notice.succeeded)
    {
      assert DeliveryOk(s.db, s.deliveries[d]);
    }
  }

  /** Platform invoices are numbered 1 to n without a gap, n being the counter. */
  lemma InvoiceNumbersGapFree(run: seq<State>, i: nat)
    requires IsRun(run) && i < |run|
    ensures run[i].db.counter == |run[i].db.invoices|
    ensures forall k | 0 <= k < |run[i].db.invoices| :: run[i].db.invoices[k].number == k + 1
  {
    RunKeepsPaySide(run, i);
  }

  predicate IsDeliveryStep(a: Action, d: nat) {
    match a
    case ReadPayment(e, _) => e == d
    case SwapExpired(e) => e == d
    case ReadAgain(e) => e == d
    case Decide(e) => e == d
    case ReadSubscription(e) => e == d
    case Commit(e) => e == d
    case Report(e) => e == d
    case Crash(e) => e == d
    case _ => false
  }

  /** An overdue delivery may expire its payment or record a conflict on it, and nothing else. */
  lemma OverdueStepOnRows(s: State, a: Action, d: nat)
    requires PaySide(s) && Enabled(s, a) && IsDeliveryStep(a, d)
    requires d < |s.deliveries| && s.deliveries[d].overdue
    ensures var s' := Step(s, a);
      && s'.db == s.db.(payments := s'.db.payments)
      && (forall p | p in s.db.payments ::
            p in s'.db.payments
            && (s'.db.payments[p].status == s.db.payments[p].status
                || (s.db.payments[p].status == Pending && s'.db.payments[p].status == Expired)))
      && d < |s'.deliveries| && s'.deliveries[d].overdue && s'.deliveries[d].committed == s.deliveries[d].committed
  {
    assert DeliveryOk(s.db, s.deliveries[d]);
    assert !a.Commit? && !a.ReadSubscription? && !a.ReadPayment?;
  }

  /**
   Expiry safety: once a delivery has read its payment past the date, every further step of it leaves
   subscriptions, events, invoices and counter alone, resolves no payment as succeeded or failed, and
   can only end in a rejection, a replay, a conflict or a crash.
   */
  lemma OverdueDeliveryIsHarmless(run: seq<State>, i: nat, a: Action, d: nat)
    requires IsRun(run) && i < |run| && Enabled(run[i], a) && IsDeliveryStep(a, d)
    requires d < |run[i].deliveries| && run[i].deliveries[d].overdue
    ensures var (s, s') := (run[i], Step(run[i], a));
      && s'.db == s.db.(payments := s'.db.payments)
      && (forall p | p in s.db.payments ::
            p in s'.db.payments
            && (s'.db.payments[p].status == s.db.payments[p].status
                || (s.db.payments[p].status == Pending && s'.db.payments[p].status == Expired)))
      && d < |s'.deliveries| && s'.deliveries[d].overdue && !s'.deliveries[d].committed
      && (s'.deliveries[d].pc.Finished? ==>
            s'.deliveries[d].pc.outcome in {PaymentExpired, IgnoredAlreadyProcessed, StatusConflict, Crashed})
  {
    RunKeepsPaySide(run, i);
    assert DeliveryOk(run[i].db, run[i].deliveries[d]);
    OverdueStepOnRows(run[i], a, d);
    if Step(run[i], a).deliveries[d].pc.Finished? {
      OverdueOutcome(run[i], a, d);
    }
  }

  lemma OverdueOutcome(s: State, a: Action, d: nat)
    requires PaySide(s) && Enabled(s, a) && d < |s.deliveries| && d < |Step(s, a).deliveries|
    requires Step(s, a).deliveries[d].overdue && Step(s, a).deliveries[d].pc.Finished?
    ensures Step(s, a).deliveries[d].pc.outcome in {PaymentExpired, IgnoredAlreadyProcessed, StatusConflict, Crashed}
  {
    StepKeepsPaySide(s, a);
    assert DeliveryOk(Step(s, a).db, Step(s, a).deliveries[d]);
  }

  // ---- Recorded conflicts ----

  ghost predicate ConflictFits(payment: Payment) {
    payment.conflict.Some? ==>
      && payment.status != Pending && payment.conflict.value.against == payment.status
      && payment.conflict.value.incoming in {Succeeded, Failed} && payment.conflict.value.incoming != payment.status
  }

  ghost predicate ConflictsFit(db: Db) {
    forall p | p in db.payments :: ConflictFits(db.payments[p])
  }

  lemma DecideFits(s: State, d: nat)
    requires PaySide(s) && ConflictsFit(s.db) && Enabled(s, Decide(d))
    ensures ConflictsFit(Step(s, Decide(d)).db)
  {
    assert DeliveryOk(s.db, s.deliveries[d]);
  }

  lemma CommitFits(s: State, d: nat)
    requires PaySide(s) && ConflictsFit(s.db) && Enabled(s, Commit(d))
    ensures ConflictsFit(AfterCommit(s, d, Attempt(s, d)).db)
  {
    hide Resolve;
    var delivery := s.deliveries[d];
    if Attempt(s, d).Applied? {
      AppliedPays(s.db, delivery.payment.value, delivery.notice.succeeded, delivery.pc.read, s.clock, s.clock + GRACE_PERIOD);
    }
  }

  lemma StepFits(s: State, a: Action)
    requires PaySide(s) && ConflictsFit(s.db) && Enabled(s, a)
    ensures ConflictsFit(Step(s, a).db)
  {
    hide PaySide, Resolve, Judge;
    match a
    case Decide(d) => DecideFits(s, d);
    case Commit(d) => CommitFits(s, d);
    case ReadPayment(_, _) => MemorySteps(s, a);
    case ReadAgain(_) => MemorySteps(s, a);
    case _ =>
      if !TouchesPayments(a) {
        OtherSteps(s, a);
      }
  }

  /**
   In every run a conflict recorded on a payment names the status the payment has for good, which is not
   pending, and a different outcome that was announced for it.
   */
  lemma ConflictsNameBoth(run: seq<State>, i: nat, p: nat)
    requires IsRun(run) && i < |run| && p in run[i].db.payments && run[i].db.payments[p].conflict.Some?
    ensures var (status, conflict) := (run[i].db.payments[p].status, run[i].db.payments[p].conflict.value);
      && status != Pending && conflict.against == status
      && conflict.incoming != status && (conflict.incoming == Succeeded || conflict.incoming == Failed)
  {
    RunFits(run, i);
    assert ConflictFits(run[i].db.payments[p]);
  }

  lemma {:induction false} RunFits(run: seq<State>, i: nat)
    requires IsRun(run) && i < |run|
    ensures ConflictsFit(run[i].db)
  {
    hide Step, Enabled, PaySide, ConflictsFit;
    if i == 0 {
      NoneYet();
    } else {
      RunFits(run, i - 1);
      RunKeepsPaySide(run, i - 1);
      assert Next(run[i - 1], run[i - 1 + 1]);
      var a :| Enabled(run[i - 1], a) && Step(run[i - 1], a) == run[i];
      StepFits(run[i - 1], a);
    }
  }

  lemma NoneYet()
    ensures ConflictsFit(Initial.db)
  {
  }

  /** A delivery that answers with a conflict has recorded what it announced and the status it met. */
  lemma ConflictIsRecorded(s: State, a: Action, d: nat)
    requires PaySide(s) && Enabled(s, a) && d < |s.deliveries| && d < |Step(s, a).deliveries|
    requires s.deliveries[d].pc != Finished(StatusConflict) && Step(s, a).deliveries[d].pc == Finished(StatusConflict)
    ensures var (s', delivery) := (Step(s, a), s.deliveries[d]);
      delivery.payment.Some? && delivery.payment.value in s.db.payments && delivery.payment.value in s'.db.payments
      && s'.db.payments[delivery.payment.value] ==
         s.db.payments[delivery.payment.value].(
           conflict := Some(Conflict(
             if delivery.notice.succeeded then Succeeded else Failed, s.db.payments[delivery.payment.value].status)))
  {
    if a != Decide(d) {
      OnlyDecideConflicts(s, a, d);
    }
    assert DeliveryOk(s.db, s.deliveries[d]);
  }

  lemma OnlyDecideConflicts(s: State, a: Action, d: nat)
    requires Enabled(s, a) && d < |s.deliveries| && a != Decide(d)
    ensures d < |Step(s, a).deliveries| && Step(s, a).deliveries[d].pc == Finished(StatusConflict) ==>
              s.deliveries[d].pc == Finished(StatusConflict)
  {
    hide Resolve, ExpireIfPending, MoveIfStill, ChangePlan, PastDate;
    if !TouchesPayments(a) {
      OtherSteps(s, a);
    }
  }

  // ---- Building runs ----

  function Last(run: seq<State>): State
    requires run != []
  {
    run[|run| - 1]
  }

  lemma Extend(run: seq<State>, a: Action) returns (run': seq<State>)
    requires IsRun(run) && Enabled(Last(run), a)
    ensures run' == run + [Step(Last(run), a)] && IsRun(run') && Last(run') == Step(Last(run), a)
  {
    run' := run + [Step(Last(run), a)];
    forall i | 0 <= i < |run'| - 1
      ensures Next(run'[i], run'[i + 1])
    {
      if i < |run| - 1 {
        assert Next(run[i], run[i + 1]);
      }
    }
  }
}
