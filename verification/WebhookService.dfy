/**
 One delivery from its outer read to its answer, as the service runs it. Whenever it lets go of the
 database the other transactions have their turn; what they may do is what the runs of BillingRuns
 allow them. The method is tied to the steps of that machine, one by one.
 */
module WebhookService {
  import opened Wrappers
  import opened Billing
  import opened BillingRuns
  import Sub = SubscriptionStatus

  /** The rows and the clock, as they stand when a delivery gets hold of the database again. */
  datatype World = World(db: Db, clock: nat)

  /** What the others do in the `k`-th pause of a delivery. */
  type Others = (nat, World) -> World

  /** The others never touch a payment that has left PENDING, and never forget or re-key one. */
  ghost predicate Fair(others: Others) {
    forall k: nat, w: World | PaymentsOk(w.db) ::
      PaymentsEvolve(w.db, others(k, w).db) && PaymentsOk(others(k, w).db) && w.clock <= others(k, w).clock
  }

  /** The machine with this delivery alone in it. */
  function Alone(w: World, delivery: Delivery): State {
    State(w.db, w.clock, [delivery], [], [], [], [])
  }

  ghost predicate Ready(w: World, delivery: Delivery, found: Option<nat>) {
    && PaymentsOk(w.db) && DeliveryOk(w.db, delivery)
    && (delivery.pc.Received? ==> IsLookup(w.db, delivery.notice.reference, found) && !delivery.committed)
    && (!delivery.pc.Received? && !delivery.pc.Finished? ==> delivery.payment.Some?)
  }

  /** The step a delivery takes where it stands. */
  function NextStep(delivery: Delivery, found: Option<nat>): Action
    requires !delivery.pc.Finished?
  {
    match delivery.pc
    case Received => ReadPayment(0, found)
    case Expiring => SwapExpired(0)
    case ReReading => ReadAgain(0)
    case Deciding(_) => Decide(0)
    case Committing => ReadSubscription(0)
    case Writing(_) => Commit(0)
    case Resolved => Report(0)
  }

  function Rank(pc: Pc): nat {
    match pc
    case Received => 6
    case Expiring => 5
    case ReReading => 4
    case Deciding(_) => 2
    case Committing => 3
    case Writing(_) => 2
    case Resolved => 1
    case Finished(_) => 0
  }

  /** A delivery keeps its notice and the mark of having been overdue; only a kill makes it crash. */
  predicate Keeps(delivery: Delivery, delivery': Delivery) {
    && delivery'.notice == delivery.notice
    && (delivery.payment.Some? ==> delivery'.payment == delivery.payment)
    && (delivery.overdue ==> delivery'.overdue)
    && (delivery'.pc == Finished(Crashed) ==> delivery.pc == Finished(Crashed))
  }

  /** The next step is one the machine allows; it brings the delivery closer to its answer and keeps it consistent. */
  ghost predicate Advances(w: World, delivery: Delivery, found: Option<nat>)
    requires !delivery.pc.Finished?
  {
    var (s, a) := (Alone(w, delivery), NextStep(delivery, found));
    && Enabled(s, a) && |Step(s, a).deliveries| == 1
    && Rank(Step(s, a).deliveries[0].pc) < Rank(delivery.pc)
    && Ready(World(Step(s, a).db, w.clock), Step(s, a).deliveries[0], found)
    && PaymentsEvolve(w.db, Step(s, a).db)
    && Keeps(delivery, Step(s, a).deliveries[0])
  }

  lemma ReadAdvances(w: World, delivery: Delivery, found: Option<nat>)
    requires Ready(w, delivery, found) && delivery.pc.Received?
    ensures Advances(w, delivery, found)
  {
    if found.Some? && !(w.db.payments[found.value].status == Pending && PastDate(w.db.payments[found.value], w.clock)) {
      JudgeOk(w.db, delivery.(payment := found, readAt := w.clock));
    }
  }

  lemma ReReadAdvances(w: World, delivery: Delivery, found: Option<nat>)
    requires Ready(w, delivery, found) && delivery.pc.ReReading?
    ensures Advances(w, delivery, found)
  {
    JudgeOk(w.db, delivery);
  }

  lemma ExpiryStep(w: World, delivery: Delivery, found: Option<nat>)
    requires Ready(w, delivery, found) && delivery.pc.Expiring?
    ensures var (s, (db, count)) := (Alone(w, delivery), ExpireIfPending(w.db, delivery.payment.value));
      && Enabled(s, SwapExpired(0))
      && Step(s, SwapExpired(0))
         == Move(s, 0, delivery.(pc := if count == 1 then Finished(PaymentExpired) else ReReading)).(db := db)
  {
    hide ExpireIfPending;
  }

  lemma ExpiryAdvances(w: World, delivery: Delivery, found: Option<nat>)
    requires Ready(w, delivery, found) && delivery.pc.Expiring?
    ensures Advances(w, delivery, found)
  {
    hide Step, Enabled, ExpireIfPending, PaymentsOk;
    ExpiryStep(w, delivery, found);
    ExpireEvolves(w.db, delivery.payment.value);
  }

  lemma SubscriptionReadAdvances(w: World, delivery: Delivery, found: Option<nat>)
    requires Ready(w, delivery, found) && delivery.pc.Committing?
    ensures Advances(w, delivery, found)
  {
    hide Resolve, ExpireIfPending, Judge;
  }

  lemma CommitStep(w: World, delivery: Delivery, found: Option<nat>)
    requires Ready(w, delivery, found) && delivery.pc.Writing?
    ensures var s := Alone(w, delivery);
      Enabled(s, Commit(0)) && Step(s, Commit(0)) == AfterCommit(s, 0, Attempt(s, 0))
  {
    hide Resolve;
  }

  lemma CommitAdvances(w: World, delivery: Delivery, found: Option<nat>)
    requires Ready(w, delivery, found) && delivery.pc.Writing?
    ensures Advances(w, delivery, found)
  {
    hide Resolve, Step, Enabled;
    CommitStep(w, delivery, found);
    if Attempt(Alone(w, delivery), 0).Applied? {
      ResolveEvolves(w.db, delivery.payment.value, delivery.notice.succeeded, delivery.pc.read, w.clock, w.clock + GRACE_PERIOD);
    }
  }

  lemma ConflictAdvances(w: World, delivery: Delivery, found: Option<nat>)
    requires Ready(w, delivery, found) && delivery.pc.Deciding?
    ensures Advances(w, delivery, found)
  {
    hide Resolve, ExpireIfPending, Judge, PaymentsOk, PaymentsEvolve;
    ConflictEvolves(w.db, delivery.payment.value, Conflict(StatusOf(delivery.notice.succeeded), delivery.pc.readStatus));
  }

  lemma ReportAdvances(w: World, delivery: Delivery, found: Option<nat>)
    requires Ready(w, delivery, found) && delivery.pc.Resolved?
    ensures Advances(w, delivery, found)
  {
    hide Resolve, ExpireIfPending, Judge, PaymentsOk;
  }

  lemma EveryStepAdvances(w: World, delivery: Delivery, found: Option<nat>)
    requires Ready(w, delivery, found) && !delivery.pc.Finished?
    ensures Advances(w, delivery, found)
  {
    hide Advances, Ready;
    match delivery.pc
    case Received => ReadAdvances(w, delivery, found);
    case Expiring => ExpiryAdvances(w, delivery, found);
    case ReReading => ReReadAdvances(w, delivery, found);
    case Deciding(_) => ConflictAdvances(w, delivery, found);
    case Committing => SubscriptionReadAdvances(w, delivery, found);
    case Writing(_) => CommitAdvances(w, delivery, found);
    case Resolved => ReportAdvances(w, delivery, found);
  }

  /** A delivery followed to its answer: its own steps, the others having their turn after each. */
  ghost function Follow(w: World, delivery: Delivery, found: Option<nat>, others: Others, k: nat): (r: (World, Delivery))
    requires Ready(w, delivery, found) && Fair(others)
    ensures r.1.pc.Finished? && Ready(r.0, r.1, found)
    ensures PaymentsEvolve(w.db, r.0.db) && Keeps(delivery, r.1)
    decreases Rank(delivery.pc)
  {
    if delivery.pc.Finished? then (w, delivery)
    else
      EveryStepAdvances(w, delivery, found);
      var s' := Step(Alone(w, delivery), NextStep(delivery, found));
      var (w', delivery') := (World(s'.db, w.clock), s'.deliveries[0]);
      if delivery'.pc.Finished? then (w', delivery')
      else
        DeliveryStays(w'.db, others(k, w').db, delivery');
        Follow(others(k, w'), delivery', found, others, k + 1)
  }

  function Fresh(notice: Notice): Delivery {
    Delivery(notice, None, Received, false, false, 0)
  }

  /** A delivery that has moved on: finished, or followed further after a pause. */
  ghost predicate GoesOn(end: (World, Delivery), w: World, delivery: Delivery, found: Option<nat>, others: Others, k: nat)
    requires Fair(others)
  {
    if delivery.pc.Finished? then end == (w, delivery)
    else Ready(others(k, w), delivery, found) && end == Follow(others(k, w), delivery, found, others, k + 1)
  }

  /** Taking one step of a delivery, and the pause after it. */
  lemma FollowOn(w: World, delivery: Delivery, found: Option<nat>, others: Others, k: nat)
    requires Ready(w, delivery, found) && Fair(others) && !delivery.pc.Finished?
    ensures Enabled(Alone(w, delivery), NextStep(delivery, found))
    ensures var s' := Step(Alone(w, delivery), NextStep(delivery, found));
      |s'.deliveries| == 1
      && GoesOn(Follow(w, delivery, found, others, k), World(s'.db, w.clock), s'.deliveries[0], found, others, k)
  {
    EveryStepAdvances(w, delivery, found);
    var s' := Step(Alone(w, delivery), NextStep(delivery, found));
    var w', delivery' := World(s'.db, w.clock), s'.deliveries[0];
    if !delivery'.pc.Finished? {
      DeliveryStays(w'.db, others(k, w').db, delivery');
    }
  }

  lemma FollowRead(w: World, notice: Notice, found: Option<nat>, others: Others)
    requires Ready(w, Fresh(notice), found) && Fair(others)
    ensures found.Some? ==> found.value in w.db.payments
    ensures var delivery := Fresh(notice).(payment := found, readAt := if found.Some? then w.clock else 0);
      GoesOn(Follow(w, Fresh(notice), found, others, 0), w,
             if found.None? then delivery.(pc := Finished(UnknownReference))
             else if w.db.payments[found.value].status == Pending && PastDate(w.db.payments[found.value], w.clock) then
               delivery.(pc := Expiring, overdue := true)
             else Judge(delivery, w.db.payments[found.value]),
             found, others, 0)
  {
    hide GoesOn, Ready, Fair, Follow;
    FollowOn(w, Fresh(notice), found, others, 0);
  }

  /** The part of a state that a step of one delivery may rely on. */
  ghost predicate Holds(w: World, delivery: Delivery) {
    delivery.payment.Some? && delivery.payment.value in w.db.payments
    && (delivery.pc.Committing? || delivery.pc.Writing? ==> Deliverable(w.db, delivery.payment.value))
  }

  lemma ReadyHolds(w: World, delivery: Delivery, found: Option<nat>)
    requires Ready(w, delivery, found) && !delivery.pc.Received? && !delivery.pc.Finished?
    ensures Holds(w, delivery)
  {
  }

  lemma FollowExpiry(w: World, delivery: Delivery, found: Option<nat>, others: Others, k: nat)
    requires Ready(w, delivery, found) && Fair(others) && delivery.pc.Expiring?
    ensures Holds(w, delivery)
    ensures var (db, count) := ExpireIfPending(w.db, delivery.payment.value);
      GoesOn(Follow(w, delivery, found, others, k), World(db, w.clock),
             delivery.(pc := if count == 1 then Finished(PaymentExpired) else ReReading), found, others, k)
  {
    ReadyHolds(w, delivery, found);
    FollowOn(w, delivery, found, others, k);
  }

  lemma FollowReRead(w: World, delivery: Delivery, found: Option<nat>, others: Others, k: nat)
    requires Ready(w, delivery, found) && Fair(others) && delivery.pc.ReReading?
    ensures Holds(w, delivery)
    ensures GoesOn(Follow(w, delivery, found, others, k), w,
                   Judge(delivery, w.db.payments[delivery.payment.value]), found, others, k)
  {
    hide GoesOn, Fair, Follow;
    ReadyHolds(w, delivery, found);
    FollowOn(w, delivery, found, others, k);
  }

  lemma FollowConflict(w: World, delivery: Delivery, found: Option<nat>, others: Others, k: nat)
    requires Ready(w, delivery, found) && Fair(others) && delivery.pc.Deciding?
    ensures Holds(w, delivery)
    ensures var p := delivery.payment.value;
      var conflict := Some(Conflict(StatusOf(delivery.notice.succeeded), delivery.pc.readStatus));
      Follow(w, delivery, found, others, k)
      == (World(w.db.(payments := w.db.payments[p := w.db.payments[p].(conflict := conflict)]), w.clock),
          delivery.(pc := Finished(StatusConflict)))
  {
    hide Ready, Fair, Follow, Resolve, Judge;
    ReadyHolds(w, delivery, found);
    FollowOn(w, delivery, found, others, k);
  }

  lemma FollowReport(w: World, delivery: Delivery, found: Option<nat>, others: Others, k: nat)
    requires Ready(w, delivery, found) && Fair(others) && delivery.pc.Resolved?
    ensures Follow(w, delivery, found, others, k) == (w, delivery.(pc := Finished(Processed)))
  {
    hide Ready, Fair, Follow, Resolve;
    FollowOn(w, delivery, found, others, k);
  }

  /** The subscription of a payment. */
  function SubscriptionOf(db: Db, p: nat): Subscription
    requires Deliverable(db, p)
  {
    db.subscriptions[db.payments[p].subscription.value]
  }

  lemma FollowSubscriptionRead(w: World, delivery: Delivery, found: Option<nat>, others: Others, k: nat)
    requires Ready(w, delivery, found) && Fair(others) && delivery.pc.Committing?
    ensures Holds(w, delivery)
    ensures GoesOn(Follow(w, delivery, found, others, k), w,
                   delivery.(pc := Writing(SubscriptionOf(w.db, delivery.payment.value))), found, others, k)
  {
    hide Ready, GoesOn, Fair, Follow;
    ReadyHolds(w, delivery, found);
    FollowOn(w, delivery, found, others, k);
  }

  lemma FollowWrites(w: World, delivery: Delivery, found: Option<nat>, others: Others, k: nat)
    requires Ready(w, delivery, found) && Fair(others) && delivery.pc.Writing?
    ensures Holds(w, delivery)
    ensures var end := Follow(w, delivery, found, others, k);
      match Resolve(w.db, delivery.payment.value, delivery.notice.succeeded, delivery.pc.read, w.clock, w.clock + GRACE_PERIOD)
      case Lost => end == (w, delivery.(pc := Finished(IgnoredAlreadyProcessed)))
      case Refused(_, _) => end == (w, delivery.(pc := Finished(TransitionRefused)))
      case Applied(db) =>
        end == (others(k, World(db, w.clock)), delivery.(pc := Finished(Processed), committed := true))
  {
    hide Ready, Fair, Follow, Resolve;
    ReadyHolds(w, delivery, found);
    FollowOn(w, delivery, found, others, k);
    match Attempt(Alone(w, delivery), 0)
    case Applied(db) =>
      FollowReport(others(k, World(db, w.clock)), delivery.(pc := Resolved, committed := true), found, others, k + 1);
    case _ =>
  }

  /**
   What an answer tells, whatever the others do meanwhile. `processed` is reported exactly by the
   delivery that committed the payment's outcome; a payment that was past its date when it was read is
   never resolved by this delivery; one already resolved is a replay when the outcomes agree and a
   conflict when they do not; a wrong amount or a missing subscription leaves every row alone.
   */
  lemma AnswerMeans(w: World, notice: Notice, found: Option<nat>, others: Others)
    requires Ready(w, Fresh(notice), found) && Fair(others)
    ensures found.Some? ==> found.value in w.db.payments
    ensures var (w', end) := Follow(w, Fresh(notice), found, others, 0);
      && (end.pc == Finished(Processed) <==> end.committed)
      && (found.None? ==> w' == w && end.pc == Finished(UnknownReference))
      && (found.Some? ==>
            && end.payment == found && found.value in w'.db.payments
            && (end.committed ==> w'.db.payments[found.value].status == StatusOf(notice.succeeded))
            && var payment := w.db.payments[found.value];
               if payment.status != Pending then
                 end.pc == Finished(if payment.status == StatusOf(notice.succeeded) then IgnoredAlreadyProcessed else StatusConflict)
               else if payment.expiresAt.Some? && payment.expiresAt.value < w.clock then
                 !end.committed && end.pc.outcome in {PaymentExpired, IgnoredAlreadyProcessed, StatusConflict}
               else if payment.amount != notice.amount || payment.currency != notice.currency then
                 w' == w && end.pc == Finished(AmountMismatch)
               else
                 payment.subscription.None? ==> w' == w && end.pc == Finished(NoSubscription))
  {
    hide Fair, Follow;
    FollowRead(w, notice, found, others);
    if found.Some? {
      var payment, delivery := w.db.payments[found.value], Fresh(notice).(payment := found, readAt := w.clock);
      if payment.status != Pending && payment.status != StatusOf(notice.succeeded) {
        FollowConflict(others(0, w), delivery.(pc := Deciding(payment.status)), found, others, 1);
      }
    }
  }

  /**
   The answer to an in-date, matching payment with a subscription is that of its transaction, on the
   subscription as the others have left it when it is read, and the rows as they have left them by its writes.
   */
  lemma TransactionAnswers(w: World, notice: Notice, p: nat, others: Others)
    requires Ready(w, Fresh(notice), Some(p)) && Fair(others)
    requires p in w.db.payments && w.db.payments[p].status == Pending
    requires w.db.payments[p].expiresAt.None? || w.db.payments[p].expiresAt.value >= w.clock
    requires w.db.payments[p].amount == notice.amount && w.db.payments[p].currency == notice.currency
    requires w.db.payments[p].subscription.Some?
    ensures var (atRead, end) := (others(0, w), Follow(w, Fresh(notice), Some(p), others, 0).1);
      var atWrite := others(1, atRead);
      Deliverable(atRead.db, p) && Deliverable(atWrite.db, p)
      && var read := SubscriptionOf(atRead.db, p).status;
         end.pc == Finished(
           if atWrite.db.payments[p].status != Pending then IgnoredAlreadyProcessed
           else if read in {Sub.Cancelled, Sub.Expired} || (read == Sub.Suspended && !notice.succeeded) then TransitionRefused
           else Processed)
  {
    hide Fair, Follow, Resolve, Ready;
    FollowRead(w, notice, Some(p), others);
    var atRead, delivery := others(0, w), Delivery(notice, Some(p), Committing, false, false, w.clock);
    FollowSubscriptionRead(atRead, delivery, Some(p), others, 1);
    var atWrite := others(1, atRead);
    FollowWrites(atWrite, delivery.(pc := Writing(SubscriptionOf(atRead.db, p))), Some(p), others, 2);
    if atWrite.db.payments[p].status == Pending {
      RefusedExactlyWhen(atWrite.db, p, notice.succeeded, SubscriptionOf(atRead.db, p), atWrite.clock, atWrite.clock + GRACE_PERIOD);
    }
    LostExactlyWhen(atWrite.db, p, notice.succeeded, SubscriptionOf(atRead.db, p), atWrite.clock, atWrite.clock + GRACE_PERIOD);
  }

  /**
   The answer to an overdue payment is settled by what the others have left of it when the delivery tries
   to expire it: a rejection when it is still pending, else a replay or a conflict by its outcome.
   */
  lemma OverdueAnswers(w: World, notice: Notice, p: nat, others: Others)
    requires Ready(w, Fresh(notice), Some(p)) && Fair(others)
    requires p in w.db.payments && w.db.payments[p].status == Pending
    requires w.db.payments[p].expiresAt.Some? && w.db.payments[p].expiresAt.value < w.clock
    ensures var (now, end) := (others(0, w), Follow(w, Fresh(notice), Some(p), others, 0).1);
      p in now.db.payments
      && end.pc == Finished(
           if now.db.payments[p].status == Pending then PaymentExpired
           else if now.db.payments[p].status == StatusOf(notice.succeeded) then IgnoredAlreadyProcessed
           else StatusConflict)
  {
    hide Follow, Ready, PaymentsOk, DeliveryOk, Judge;
    FollowRead(w, notice, Some(p), others);
    var now, delivery := others(0, w), Delivery(notice, Some(p), Expiring, true, false, w.clock);
    FollowExpiry(now, delivery, Some(p), others, 1);
    if now.db.payments[p].status != Pending {
      ResolvedAnswers(now, delivery, p, others);
    }
  }

  lemma ResolvedAnswers(now: World, delivery: Delivery, p: nat, others: Others)
    requires Ready(now, delivery, Some(p)) && Fair(others) && delivery.pc == Expiring && delivery.payment == Some(p)
    requires p in now.db.payments && now.db.payments[p].status != Pending
    ensures Follow(now, delivery, Some(p), others, 1).1.pc == Finished(
      if now.db.payments[p].status == StatusOf(delivery.notice.succeeded) then IgnoredAlreadyProcessed else StatusConflict)
  {
    hide Follow, Resolve;
    FollowExpiry(now, delivery, Some(p), others, 1);
    var again, reading := others(1, now), delivery.(pc := ReReading);
    FollowReRead(again, reading, Some(p), others, 2);
    var status := now.db.payments[p].status;
    assert again.db.payments[p].status == status;
    if status != StatusOf(delivery.notice.succeeded) {
      FollowConflict(others(2, again), reading.(pc := Deciding(status)), Some(p), others, 3);
    }
  }

  /** The delivery service over the rows, with a clock. */
  class Service {
    const store: Store
    var clock: nat

    function Here(): (w: World)
      reads this, store
    {
      World(store.Rows(), clock)
    }

    constructor (store: Store, clock: nat)
      ensures this.store == store && this.clock == clock
    {
      this.store, this.clock := store, clock;
    }

    method Pause(k: nat, others: Others)
      modifies this, store
      ensures Here() == others(k, old(Here()))
    {
      var w := others(k, Here());
      clock := w.clock;
      store.Load(w.db);
    }

    method Handle(notice: Notice, found: Option<nat>, others: Others) returns (outcome: Outcome)
      requires Ready(Here(), Fresh(notice), found) && Fair(others)
      modifies this, store
      ensures var (w, delivery) := Follow(old(Here()), Fresh(notice), found, others, 0);
        Here() == w && delivery.pc == Finished(outcome)
    {
      hide Ready, Fair, Follow, Resolve, PaymentsEvolve, PaymentsOk, DeliveryOk;
      ghost var end := Follow(Here(), Fresh(notice), found, others, 0);
      FollowRead(Here(), notice, found, others);
      if found.None? {
        return UnknownReference;
      }
      var payment := store.payments[found.value];
      ghost var delivery := Fresh(notice).(payment := found, readAt := clock);
      var k := 0;
      if payment.status == Pending && PastDate(payment, clock) {
        Pause(0, others);
        delivery := delivery.(pc := Expiring, overdue := true);
        FollowExpiry(Here(), delivery, found, others, 1);
        var count := store.ExpirePending(found.value);
        if count == 1 {
          return PaymentExpired;
        }
        Pause(1, others);
        delivery := delivery.(pc := ReReading);
        FollowReRead(Here(), delivery, found, others, 2);
        payment := store.payments[found.value];
        k := 2;
      }
      ghost var judged := Judge(delivery, payment);
      if payment.status != Pending {
        if payment.status == StatusOf(notice.succeeded) {
          return IgnoredAlreadyProcessed;
        }
        Pause(k, others);
        FollowConflict(Here(), judged, found, others, k + 1);
        store.RecordConflict(found.value, Conflict(StatusOf(notice.succeeded), payment.status));
        return StatusConflict;
      }
      if payment.amount != notice.amount || payment.currency != notice.currency {
        return AmountMismatch;
      }
      if payment.subscription.None? {
        return NoSubscription;
      }
      Pause(k, others);
      outcome := RunTransaction(notice, found.value, others, k + 1, judged);
    }

    /** The transaction: the subscription is read, and updated after the others had their turn. */
    method RunTransaction(notice: Notice, p: nat, others: Others, k: nat, ghost delivery: Delivery) returns (outcome: Outcome)
      requires Fair(others) && delivery.notice == notice && delivery.payment == Some(p) && delivery.pc.Committing?
      requires Ready(Here(), delivery, Some(p))
      modifies this, store
      ensures var (w, end) := Follow(old(Here()), delivery, Some(p), others, k);
        Here() == w && end.pc == Finished(outcome)
    {
      hide Ready, Fair, Follow, Resolve, PaymentsEvolve, PaymentsOk, DeliveryOk;
      FollowSubscriptionRead(Here(), delivery, Some(p), others, k);
      var read := store.subscriptions[store.payments[p].subscription.value];
      Pause(k, others);
      FollowWrites(Here(), delivery.(pc := Writing(read)), Some(p), others, k + 1);
      var delivered := store.Deliver(p, notice.succeeded, read, clock, clock + GRACE_PERIOD, true);
      if delivered.TransitionDenied? {
        return TransitionRefused;
      }
      if delivered.SwapLost? {
        return IgnoredAlreadyProcessed;
      }
      Pause(k + 1, others);
      return Processed;
    }
  }
}
