/**
 Invoices issued to a tenant's customers: at most one per sale, numbered without gaps, deduplicated by
 key. Every read of a creation sees the rows of its own moment, as READ COMMITTED gives them; the unique
 constraints on sale, key and number catch what happens in between, and the loser looks in fresh
 transactions for what beat it. Numbers are unique across all tenants.
 */
module Invoicing {
  import opened Wrappers
  import opened Numbering

  datatype InvoiceStatus = Issued | Paid | Void

  datatype Invoice = Invoice(sale: nat, number: nat, key: Option<string>, status: InvoiceStatus)

  datatype Outcome =
    | Created(index: nat)
    | Replayed(index: nat)
    | SaleNotFound
    | SaleNotConfirmed
    | AlreadyInvoiced
    | DatabaseError

  /** Why an insert did not go through: sale or key taken, number taken, or anything else in the database. */
  datatype Cause = Taken | NumberTaken | BrokenOff

  datatype Pc =
    | Begun
    | KeyMissed
    | SaleSeen
    | Checked
    | LookingForKey(cause: Cause)
    | LookingForSale(cause: Cause)
    | Finished(outcome: Outcome)

  /** `seen` is history: how many invoices there were when the call last looked for its key, or began. */
  datatype Call = Call(sale: nat, key: Option<string>, pc: Pc, seen: nat)

  /** A payment or voiding that has read its invoice as issued. */
  datatype Settling = Settling(invoice: nat, status: InvoiceStatus, written: bool)

  /** A number that another tenant has issued. */
  datatype Foreign = Foreign(tenant: Tenant, number: nat)

  /**
   `confirmed` maps the known sales to whether they are confirmed. `resettled` is history: the invoices
   whose payment or voiding was written over by the other.
   */
  datatype State = State(
    tenant: Tenant,
    confirmed: map<nat, bool>,
    invoices: seq<Invoice>,
    counter: nat,
    foreign: set<Foreign>,
    calls: seq<Call>,
    settlings: seq<Settling>,
    resettled: set<nat>)

  function Initial(tenant: Tenant): State {
    State(tenant, map[], [], 0, {}, [], [], {})
  }

  // ---- Look-ups ----

  predicate KeyUsed(invoices: seq<Invoice>, key: Option<string>) {
    key.Some? && exists i | 0 <= i < |invoices| :: invoices[i].key == key
  }

  predicate SaleInvoiced(invoices: seq<Invoice>, sale: nat) {
    exists i | 0 <= i < |invoices| :: invoices[i].sale == sale
  }

  function FindKey(invoices: seq<Invoice>, key: Option<string>): (i: nat)
    requires KeyUsed(invoices, key)
    ensures i < |invoices| && invoices[i].key == key
  {
    if invoices[|invoices| - 1].key == key then |invoices| - 1
    else
      assert KeyUsed(invoices[..|invoices| - 1], key) by {
        var i :| 0 <= i < |invoices| && invoices[i].key == key;
        assert invoices[..|invoices| - 1][i].key == key;
      }
      FindKey(invoices[..|invoices| - 1], key)
  }

  /** The index on numbers already holds the one that comes after `counter`. */
  predicate NumberUsed(tenant: Tenant, foreign: set<Foreign>, counter: nat) {
    exists f | f in foreign :: Render(SalesInvoice, f.tenant, f.number) == Render(SalesInvoice, tenant, counter + 1)
  }

  // ---- The statements of a creation ----

  function LookUpKey(invoices: seq<Invoice>, key: Option<string>): Pc {
    if KeyUsed(invoices, key) then Finished(Replayed(FindKey(invoices, key))) else KeyMissed
  }

  function ReadSale(confirmed: map<nat, bool>, sale: nat): Pc {
    if sale !in confirmed then Finished(SaleNotFound)
    else if !confirmed[sale] then Finished(SaleNotConfirmed)
    else SaleSeen
  }

  function LookUpSale(invoices: seq<Invoice>, sale: nat): Pc {
    if SaleInvoiced(invoices, sale) then Finished(AlreadyInvoiced) else Checked
  }

  /** Counter and row together; a unique violation rolls both back. */
  function Insert(tenant: Tenant, foreign: set<Foreign>, invoices: seq<Invoice>, counter: nat, sale: nat, key: Option<string>)
    : (seq<Invoice>, nat, Pc)
  {
    if SaleInvoiced(invoices, sale) || KeyUsed(invoices, key) then (invoices, counter, LookingForKey(Taken))
    else if NumberUsed(tenant, foreign, counter) then (invoices, counter, LookingForKey(NumberTaken))
    else (invoices + [Invoice(sale, counter + 1, key, Issued)], counter + 1, Finished(Created(|invoices|)))
  }

  function RecoverByKey(invoices: seq<Invoice>, key: Option<string>, cause: Cause): Pc {
    if KeyUsed(invoices, key) then Finished(Replayed(FindKey(invoices, key))) else LookingForSale(cause)
  }

  function RecoverBySale(invoices: seq<Invoice>, sale: nat): Pc {
    Finished(if SaleInvoiced(invoices, sale) then AlreadyInvoiced else DatabaseError)
  }

  datatype Action =
    | AddSale(sale: nat)
    | ConfirmSale(sale: nat)
    | Begin(sale: nat, key: Option<string>)
    | RunLookUpKey(c: nat)
    | RunReadSale(c: nat)
    | RunLookUpSale(c: nat)
    | RunInsert(c: nat)
    | BreakOff(c: nat)
    | FindByKey(c: nat)
    | FindBySale(c: nat)
    | BeginSettle(i: nat, status: InvoiceStatus)
    | WriteSettle(k: nat)
    | OtherTenantIssues(tenant: Tenant, number: nat)

  predicate Enabled(s: State, a: Action) {
    match a
    case AddSale(sale) => sale !in s.confirmed
    case ConfirmSale(sale) => sale in s.confirmed
    case Begin(_, _) => true
    case RunLookUpKey(c) => c < |s.calls| && s.calls[c].pc == Begun
    case RunReadSale(c) => c < |s.calls| && s.calls[c].pc == KeyMissed
    case RunLookUpSale(c) => c < |s.calls| && s.calls[c].pc == SaleSeen
    case RunInsert(c) => c < |s.calls| && s.calls[c].pc == Checked
    case BreakOff(c) => c < |s.calls| && s.calls[c].pc in {Begun, KeyMissed, SaleSeen, Checked}
    case FindByKey(c) => c < |s.calls| && s.calls[c].pc.LookingForKey?
    case FindBySale(c) => c < |s.calls| && s.calls[c].pc.LookingForSale?
    case BeginSettle(i, status) => i < |s.invoices| && status != Issued
    case WriteSettle(k) => k < |s.settlings| && !s.settlings[k].written && s.settlings[k].invoice < |s.invoices|
    case OtherTenantIssues(tenant, number) =>
      tenant != s.tenant && forall i | 0 <= i < |s.invoices| ::
        Render(SalesInvoice, tenant, number) != Render(SalesInvoice, s.tenant, s.invoices[i].number)
  }

  function Goto(s: State, c: nat, pc: Pc): State
    requires c < |s.calls|
  {
    s.(calls := s.calls[c := s.calls[c].(pc := pc)])
  }

  /** The same after a look-up by key, which is what the call now knows. */
  function GotoSeeing(s: State, c: nat, pc: Pc): State
    requires c < |s.calls|
  {
    s.(calls := s.calls[c := s.calls[c].(pc := pc, seen := |s.invoices|)])
  }

  function Step(s: State, a: Action): State
    requires Enabled(s, a)
  {
    match a
    case AddSale(sale) => s.(confirmed := s.confirmed[sale := false])
    case ConfirmSale(sale) => s.(confirmed := s.confirmed[sale := true])
    case Begin(sale, key) => s.(calls := s.calls + [Call(sale, key, Begun, |s.invoices|)])
    case RunLookUpKey(c) => GotoSeeing(s, c, LookUpKey(s.invoices, s.calls[c].key))
    case RunReadSale(c) => Goto(s, c, ReadSale(s.confirmed, s.calls[c].sale))
    case RunLookUpSale(c) => Goto(s, c, LookUpSale(s.invoices, s.calls[c].sale))
    case RunInsert(c) =>
      var (invoices, counter, pc) := Insert(s.tenant, s.foreign, s.invoices, s.counter, s.calls[c].sale, s.calls[c].key);
      Goto(s, c, pc).(invoices := invoices, counter := counter)
    case BreakOff(c) => Goto(s, c, LookingForKey(BrokenOff))
    case FindByKey(c) => GotoSeeing(s, c, RecoverByKey(s.invoices, s.calls[c].key, s.calls[c].pc.cause))
    case FindBySale(c) => Goto(s, c, RecoverBySale(s.invoices, s.calls[c].sale))
    case BeginSettle(i, status) =>
      // paying or voiding is for issued invoices only
      if s.invoices[i].status == Issued then s.(settlings := s.settlings + [Settling(i, status, false)]) else s
    case WriteSettle(k) =>
      // by id alone
      var (i, status) := (s.settlings[k].invoice, s.settlings[k].status);
      s.(invoices := s.invoices[i := s.invoices[i].(status := status)],
         settlings := s.settlings[k := s.settlings[k].(written := true)],
         resettled := if s.invoices[i].status in {Issued, status} then s.resettled else s.resettled + {i})
    case OtherTenantIssues(tenant, number) => s.(foreign := s.foreign + {Foreign(tenant, number)})
  }

  ghost predicate Next(s: State, s': State) {
    exists a :: Enabled(s, a) && Step(s, a) == s'
  }

  ghost predicate IsRun(run: seq<State>) {
    run != [] && run[0] == Initial(run[0].tenant) && forall i | 0 <= i < |run| - 1 :: Next(run[i], run[i + 1])
  }

  // ---- The invariant ----

  ghost predicate NumbersOk(invoices: seq<Invoice>, counter: nat) {
    && counter == |invoices|
    && (forall i | 0 <= i < |invoices| :: invoices[i].number == i + 1)
    && (forall i, j | 0 <= i < j < |invoices| :: invoices[i].sale != invoices[j].sale)
    && (forall i, j | 0 <= i < j < |invoices| && invoices[i].key.Some? :: invoices[i].key != invoices[j].key)
  }

  /** The index on numbers holds no duplicate: none of the tenant's own is another tenant's. */
  ghost predicate IndexOk(s: State) {
    forall f, i | f in s.foreign && 0 <= i < |s.invoices| ::
      Render(SalesInvoice, f.tenant, f.number) != Render(SalesInvoice, s.tenant, s.invoices[i].number)
  }

  ghost predicate Blocked(s: State) {
    NumberUsed(s.tenant, s.foreign, s.counter)
  }

  /** The sale has an invoice, and it is the one of this key. */
  ghost predicate IsReplay(invoices: seq<Invoice>, sale: nat, key: Option<string>) {
    key.Some? && exists k | 0 <= k < |invoices| :: invoices[k].sale == sale && invoices[k].key == key
  }

  /** No invoice that the call has looked at carries its key. */
  ghost predicate UnseenKey(invoices: seq<Invoice>, call: Call) {
    call.key.Some? ==> forall k | 0 <= k < call.seen && k < |invoices| :: invoices[k].key != call.key
  }

  ghost predicate CallOk(s: State, call: Call) {
    && call.seen <= |s.invoices|
    && (call.pc in {KeyMissed, SaleSeen, Checked, Finished(AlreadyInvoiced)} || call.pc.LookingForSale? ==> UnseenKey(s.invoices, call))
    && (call.pc in {SaleSeen, Checked} ==> call.sale in s.confirmed && s.confirmed[call.sale])
    && (call.pc == LookingForKey(Taken) ==> KeyUsed(s.invoices, call.key) || SaleInvoiced(s.invoices, call.sale))
    && (call.pc == LookingForSale(Taken) ==> SaleInvoiced(s.invoices, call.sale) && !IsReplay(s.invoices, call.sale, call.key))
    && (call.pc == LookingForKey(NumberTaken) || call.pc == LookingForSale(NumberTaken) ==>
          Blocked(s) && !KeyUsed(s.invoices, call.key) && !SaleInvoiced(s.invoices, call.sale))
    && (call.pc == Finished(AlreadyInvoiced) ==> SaleInvoiced(s.invoices, call.sale))
    && (call.pc.Finished? && call.pc.outcome.Created? ==>
          var i := call.pc.outcome.index;
          i < |s.invoices| && s.invoices[i].sale == call.sale && s.invoices[i].key == call.key)
    && (call.pc.Finished? && call.pc.outcome.Replayed? ==>
          var i := call.pc.outcome.index;
          i < |s.invoices| && call.key.Some? && s.invoices[i].key == call.key)
  }

  ghost predicate CreatedBy(s: State, c: nat, i: nat) {
    c < |s.calls| && s.calls[c].pc == Finished(Created(i))
  }

  ghost predicate Inv(s: State) {
    && NumbersOk(s.invoices, s.counter)
    && IndexOk(s)
    && (forall i | 0 <= i < |s.invoices| :: s.invoices[i].sale in s.confirmed && s.confirmed[s.invoices[i].sale])
    && (forall c | 0 <= c < |s.calls| :: CallOk(s, s.calls[c]))
    && (forall c: nat, d: nat, i: nat | CreatedBy(s, c, i) && CreatedBy(s, d, i) :: c == d)
  }

  /** Invoices are appended and keep sale, number and key. */
  ghost predicate InvoicesEvolve(invoices: seq<Invoice>, invoices': seq<Invoice>) {
    |invoices| <= |invoices'| && forall i | 0 <= i < |invoices| :: invoices'[i] == invoices[i].(status := invoices'[i].status)
  }

  /** What any step may do to what calls rely on; while the next number is taken, no invoice is added. */
  ghost predicate StateEvolves(s: State, s': State) {
    && InvoicesEvolve(s.invoices, s'.invoices)
    && s'.tenant == s.tenant && s.foreign <= s'.foreign
    && (forall sale | sale in s.confirmed && s.confirmed[sale] :: sale in s'.confirmed && s'.confirmed[sale])
    && (Blocked(s) ==> |s'.invoices| == |s.invoices| && s'.counter == s.counter)
  }

  lemma LookupsPersist(invoices: seq<Invoice>, invoices': seq<Invoice>, sale: nat, key: Option<string>)
    requires InvoicesEvolve(invoices, invoices')
    ensures KeyUsed(invoices, key) ==> KeyUsed(invoices', key)
    ensures SaleInvoiced(invoices, sale) ==> SaleInvoiced(invoices', sale)
    ensures IsReplay(invoices, sale, key) ==> IsReplay(invoices', sale, key)
  {
    if KeyUsed(invoices, key) {
      var i :| 0 <= i < |invoices| && invoices[i].key == key;
      assert invoices'[i].key == key;
    }
    if SaleInvoiced(invoices, sale) {
      var i :| 0 <= i < |invoices| && invoices[i].sale == sale;
      assert invoices'[i].sale == sale;
    }
    if IsReplay(invoices, sale, key) {
      var i :| 0 <= i < |invoices| && invoices[i].sale == sale && invoices[i].key == key;
      assert invoices'[i].sale == sale && invoices'[i].key == key;
    }
  }

  /** With as many invoices as before, the look-ups answer as before. */
  lemma LookupsSame(invoices: seq<Invoice>, invoices': seq<Invoice>, sale: nat, key: Option<string>)
    requires InvoicesEvolve(invoices, invoices') && |invoices'| == |invoices|
    ensures KeyUsed(invoices', key) ==> KeyUsed(invoices, key)
    ensures SaleInvoiced(invoices', sale) ==> SaleInvoiced(invoices, sale)
  {
    if KeyUsed(invoices', key) {
      var i :| 0 <= i < |invoices'| && invoices'[i].key == key;
      assert invoices[i].key == key;
    }
    if SaleInvoiced(invoices', sale) {
      var i :| 0 <= i < |invoices'| && invoices'[i].sale == sale;
      assert invoices[i].sale == sale;
    }
  }

  /** Once the sale has an invoice, that it is another key's is settled. */
  lemma OtherKeyPersists(invoices: seq<Invoice>, invoices': seq<Invoice>, counter: nat, sale: nat, key: Option<string>)
    requires InvoicesEvolve(invoices, invoices') && NumbersOk(invoices', counter)
    requires SaleInvoiced(invoices, sale) && !IsReplay(invoices, sale, key)
    ensures !IsReplay(invoices', sale, key)
  {
    var i :| 0 <= i < |invoices| && invoices[i].sale == sale;
    assert invoices'[i].sale == sale && invoices'[i].key == invoices[i].key;
  }

  lemma BlockedStays(s: State, s': State)
    requires StateEvolves(s, s') && Blocked(s)
    ensures Blocked(s')
  {
  }

  lemma CallStays(s: State, s': State, call: Call)
    requires CallOk(s, call) && StateEvolves(s, s') && NumbersOk(s'.invoices, s'.counter)
    ensures CallOk(s', call)
  {
    LookupsPersist(s.invoices, s'.invoices, call.sale, call.key);
    if call.pc == LookingForSale(Taken) {
      OtherKeyPersists(s.invoices, s'.invoices, s'.counter, call.sale, call.key);
    }
    if call.pc == LookingForKey(NumberTaken) || call.pc == LookingForSale(NumberTaken) {
      BlockedStays(s, s');
      LookupsSame(s.invoices, s'.invoices, call.sale, call.key);
    }
  }

  /** Steps that create no invoice: one call may move on, or one more begin. */
  lemma QuietStep(s: State, s': State)
    requires Inv(s) && StateEvolves(s, s') && IndexOk(s') && |s'.invoices| == |s.invoices| && s'.counter == s.counter
    requires |s.calls| <= |s'.calls|
    requires forall c | 0 <= c < |s'.calls| ::
      (c < |s.calls| && s'.calls[c] == s.calls[c])
      || (CallOk(s', s'.calls[c]) && !(s'.calls[c].pc.Finished? && s'.calls[c].pc.outcome.Created?))
    ensures Inv(s')
  {
    assert NumbersOk(s'.invoices, s'.counter);
    forall c | 0 <= c < |s'.calls|
      ensures CallOk(s', s'.calls[c])
    {
      if c < |s.calls| && s'.calls[c] == s.calls[c] {
        CallStays(s, s', s.calls[c]);
      }
    }
    assert forall c: nat, i: nat :: CreatedBy(s', c, i) ==> CreatedBy(s, c, i);
  }

  /** A call moves on over unchanged rows. */
  lemma CallMoves(s: State, c: nat, call: Call)
    requires Inv(s) && c < |s.calls| && CallOk(s, call) && !(call.pc.Finished? && call.pc.outcome.Created?)
    ensures Inv(s.(calls := s.calls[c := call]))
  {
    QuietStep(s, s.(calls := s.calls[c := call]));
  }

  lemma LookUpKeyKeeps(s: State, c: nat)
    requires Inv(s) && Enabled(s, RunLookUpKey(c))
    ensures Inv(Step(s, RunLookUpKey(c)))
  {
    CallMoves(s, c, Step(s, RunLookUpKey(c)).calls[c]);
  }

  lemma ReadSaleKeeps(s: State, c: nat)
    requires Inv(s) && Enabled(s, RunReadSale(c))
    ensures Inv(Step(s, RunReadSale(c)))
  {
    assert CallOk(s, s.calls[c]);
    CallMoves(s, c, Step(s, RunReadSale(c)).calls[c]);
  }

  lemma LookUpSaleKeeps(s: State, c: nat)
    requires Inv(s) && Enabled(s, RunLookUpSale(c))
    ensures Inv(Step(s, RunLookUpSale(c)))
  {
    assert CallOk(s, s.calls[c]);
    CallMoves(s, c, Step(s, RunLookUpSale(c)).calls[c]);
  }

  lemma BreakOffKeeps(s: State, c: nat)
    requires Inv(s) && Enabled(s, BreakOff(c))
    ensures Inv(Step(s, BreakOff(c)))
  {
    assert CallOk(s, s.calls[c]);
    CallMoves(s, c, Step(s, BreakOff(c)).calls[c]);
  }

  lemma FindByKeyKeeps(s: State, c: nat)
    requires Inv(s) && Enabled(s, FindByKey(c))
    ensures Inv(Step(s, FindByKey(c)))
  {
    assert CallOk(s, s.calls[c]);
    CallMoves(s, c, Step(s, FindByKey(c)).calls[c]);
  }

  lemma FindBySaleKeeps(s: State, c: nat)
    requires Inv(s) && Enabled(s, FindBySale(c))
    ensures Inv(Step(s, FindBySale(c)))
  {
    assert CallOk(s, s.calls[c]);
    CallMoves(s, c, Step(s, FindBySale(c)).calls[c]);
  }

  lemma InsertKeeps(s: State, c: nat)
    requires Inv(s) && Enabled(s, RunInsert(c))
    ensures Inv(Step(s, RunInsert(c)))
  {
    var s', call := Step(s, RunInsert(c)), s.calls[c];
    assert CallOk(s, call);
    if s'.calls[c].pc.LookingForKey? {
      CallMoves(s, c, s'.calls[c]);
    } else {
      CreationKeeps(s, c);
    }
  }

  lemma CreationKeeps(s: State, c: nat)
    requires Inv(s) && Enabled(s, RunInsert(c)) && Step(s, RunInsert(c)).calls[c].pc.Finished?
    ensures Inv(Step(s, RunInsert(c)))
  {
    var s', call := Step(s, RunInsert(c)), s.calls[c];
    assert CallOk(s, call);
    assert s'.invoices[..|s.invoices|] == s.invoices;
    assert NumbersOk(s'.invoices, s'.counter);
    forall d | 0 <= d < |s'.calls|
      ensures CallOk(s', s'.calls[d])
    {
      if d != c {
        CallStays(s, s', s.calls[d]);
      }
    }
    forall d: nat, i: nat | CreatedBy(s', d, i)
      ensures if d == c then i == |s.invoices| else CreatedBy(s, d, i) && i < |s.invoices|
    {
      if d != c {
        assert CallOk(s, s.calls[d]);
      }
    }
  }

  lemma SettleKeeps(s: State, a: Action)
    requires Inv(s) && Enabled(s, a) && (a.BeginSettle? || a.WriteSettle?)
    ensures Inv(Step(s, a))
  {
    QuietStep(s, Step(s, a));
  }

  lemma OtherTenantKeeps(s: State, tenant: Tenant, number: nat)
    requires Inv(s) && Enabled(s, OtherTenantIssues(tenant, number))
    ensures Inv(Step(s, OtherTenantIssues(tenant, number)))
  {
    QuietStep(s, Step(s, OtherTenantIssues(tenant, number)));
  }

  lemma SaleOrBeginKeeps(s: State, a: Action)
    requires Inv(s) && Enabled(s, a) && (a.AddSale? || a.ConfirmSale? || a.Begin?)
    ensures Inv(Step(s, a))
  {
    QuietStep(s, Step(s, a));
  }

  lemma StepKeeps(s: State, a: Action)
    requires Inv(s) && Enabled(s, a)
    ensures Inv(Step(s, a))
  {
    hide Inv;
    match a
    case RunLookUpKey(c) => LookUpKeyKeeps(s, c);
    case RunReadSale(c) => ReadSaleKeeps(s, c);
    case RunLookUpSale(c) => LookUpSaleKeeps(s, c);
    case RunInsert(c) => InsertKeeps(s, c);
    case BreakOff(c) => BreakOffKeeps(s, c);
    case FindByKey(c) => FindByKeyKeeps(s, c);
    case FindBySale(c) => FindBySaleKeeps(s, c);
    case BeginSettle(_, _) => SettleKeeps(s, a);
    case WriteSettle(_) => SettleKeeps(s, a);
    case OtherTenantIssues(tenant, number) => OtherTenantKeeps(s, tenant, number);
    case _ => SaleOrBeginKeeps(s, a);
  }

  lemma {:induction false} RunKeeps(run: seq<State>, i: nat)
    requires IsRun(run) && i < |run|
    ensures Inv(run[i])
  {
    hide Inv, Step, Enabled;
    if i == 0 {
      InitialOk(run[0].tenant);
    } else {
      RunKeeps(run, i - 1);
      assert Next(run[i - 1], run[i - 1 + 1]);
      var a :| Enabled(run[i - 1], a) && Step(run[i - 1], a) == run[i];
      StepKeeps(run[i - 1], a);
    }
  }

  lemma InitialOk(tenant: Tenant)
    ensures Inv(Initial(tenant))
  {
  }

  // ---- What every run guarantees ----

  /**
   The counter is the number of invoices, which carry 1 to n in order and whose rendered numbers are
   pairwise distinct and no other tenant's; each is for a confirmed sale, and no sale has two.
   */
  lemma InvoicesGapFree(run: seq<State>, i: nat)
    requires IsRun(run) && i < |run|
    ensures var s := run[i];
      && s.counter == |s.invoices|
      && (forall k | 0 <= k < |s.invoices| :: s.invoices[k].number == k + 1 && s.invoices[k].sale in s.confirmed && s.confirmed[s.invoices[k].sale])
      && (forall j, k | 0 <= j < k < |s.invoices| ::
            && s.invoices[j].sale != s.invoices[k].sale
            && Render(SalesInvoice, s.tenant, s.invoices[j].number) != Render(SalesInvoice, s.tenant, s.invoices[k].number))
      && IndexOk(s)
  {
    RunKeeps(run, i);
    var s := run[i];
    forall j, k | 0 <= j < k < |s.invoices|
      ensures Render(SalesInvoice, s.tenant, s.invoices[j].number) != Render(SalesInvoice, s.tenant, s.invoices[k].number)
    {
      RenderInjective(SalesInvoice, s.tenant, s.invoices[j].number, SalesInvoice, s.tenant, s.invoices[k].number);
    }
  }

  /** A step consumes a number exactly when it makes a call report a creation; nothing else moves the counter. */
  lemma NumberConsumedExactlyWhenCreated(run: seq<State>, i: nat, a: Action)
    requires IsRun(run) && i < |run| && Enabled(run[i], a)
    ensures var (s, s') := (run[i], Step(run[i], a));
      && (s'.counter != s.counter <==> exists c: nat, k: nat :: CreatedBy(s', c, k) && !CreatedBy(s, c, k))
      && s.counter <= s'.counter <= s.counter + 1
  {
    RunKeeps(run, i);
    var s, s' := run[i], Step(run[i], a);
    if s'.counter != s.counter {
      assert CreatedBy(s', a.c, |s.invoices|) && !CreatedBy(s, a.c, |s.invoices|);
    }
  }

  lemma StepEvolves(s: State, a: Action)
    requires Enabled(s, a)
    ensures StateEvolves(s, Step(s, a))
  {
  }

  /** Invoices are never removed, renumbered or moved to another sale or key. */
  lemma {:induction false} InvoicesOnlyGrow(run: seq<State>, i: nat, j: nat)
    requires IsRun(run) && i <= j < |run|
    ensures StateEvolves(run[i], run[j])
  {
    hide Step, Enabled, NumberUsed;
    if i == j {
    } else {
      InvoicesOnlyGrow(run, i, j - 1);
      assert Next(run[j - 1], run[j - 1 + 1]);
      var a :| Enabled(run[j - 1], a) && Step(run[j - 1], a) == run[j];
      StepEvolves(run[j - 1], a);
      if Blocked(run[i]) {
        BlockedStays(run[i], run[j - 1]);
      }
    }
  }

  /** Once a key has an invoice, every later look-up by that key answers with that same invoice. */
  lemma ReplayFindsSameInvoice(run: seq<State>, i: nat, j: nat, k: nat, a: Action)
    requires IsRun(run) && i <= j < |run| && k < |run[i].invoices| && run[i].invoices[k].key.Some?
    requires (a.RunLookUpKey? || a.FindByKey?) && Enabled(run[j], a) && run[j].calls[a.c].key == run[i].invoices[k].key
    ensures Step(run[j], a).calls[a.c].pc == Finished(Replayed(k))
  {
    RunKeeps(run, j);
    InvoicesOnlyGrow(run, i, j);
    assert run[j].invoices[k].key == run[j].calls[a.c].key;
  }

  // ---- Payments against voidings ----

  /** Up to a point of the run the invoice, once paid or void, stays what it is. */
  ghost predicate StaysSettled(run: seq<State>, n: nat, i: nat)
    requires n < |run|
  {
    forall m | 0 <= m < n && i < |run[m].invoices| && run[m].invoices[i].status != Issued ::
      i < |run[m + 1].invoices| && run[m + 1].invoices[i].status == run[m].invoices[i].status
  }

  lemma SettlementStep(s: State, a: Action, i: nat)
    requires Enabled(s, a)
    ensures i in Step(s, a).resettled <==>
      i in s.resettled
      || (i < |s.invoices| && s.invoices[i].status != Issued && Step(s, a).invoices[i].status != s.invoices[i].status)
    ensures i < |s.invoices| ==> i < |Step(s, a).invoices|
  {
  }

  /** An invoice keeps its settlement along a run exactly when no second one that had read it issued writes over it. */
  lemma {:induction false} StaysSettledExactlyWhen(run: seq<State>, n: nat, i: nat)
    requires IsRun(run) && n < |run|
    ensures StaysSettled(run, n, i) <==> i !in run[n].resettled
  {
    hide Step, Enabled;
    if n > 0 {
      StaysSettledExactlyWhen(run, n - 1, i);
      assert Next(run[n - 1], run[n - 1 + 1]);
      var a :| Enabled(run[n - 1], a) && Step(run[n - 1], a) == run[n];
      SettlementStep(run[n - 1], a, i);
      assert StaysSettled(run, n, i) <==>
        StaysSettled(run, n - 1, i)
        && (i < |run[n - 1].invoices| && run[n - 1].invoices[i].status != Issued ==>
              i < |run[n].invoices| && run[n].invoices[i].status == run[n - 1].invoices[i].status);
    }
  }

  /** A step that reports a creation adds the one invoice it reports: issued, for its sale and key, under the next number. */
  lemma CreatedIsIssued(run: seq<State>, n: nat, a: Action, c: nat, i: nat)
    requires IsRun(run) && n < |run| && Enabled(run[n], a) && CreatedBy(Step(run[n], a), c, i) && !CreatedBy(run[n], c, i)
    ensures var (s, s') := (run[n], Step(run[n], a));
      && c < |s.calls| && i == |s.invoices| && |s'.invoices| == i + 1 && s'.invoices[..i] == s.invoices
      && s'.invoices[i] == Invoice(s.calls[c].sale, i + 1, s.calls[c].key, Issued)
  {
    RunKeeps(run, n);
  }

  /** A settling of the invoice has been written. */
  ghost predicate SettledBy(s: State, k: nat, i: nat) {
    k < |s.settlings| && s.settlings[k].written && s.settlings[k].invoice == i
  }

  ghost predicate SettlingsOk(s: State) {
    && (forall k | 0 <= k < |s.settlings| :: s.settlings[k].status in {Paid, Void} && s.settlings[k].invoice < |s.invoices|)
    && (forall i | 0 <= i < |s.invoices| && s.invoices[i].status != Issued ::
          exists k: nat :: SettledBy(s, k, i) && s.settlings[k].status == s.invoices[i].status)
    && (forall i, k: nat | 0 <= i < |s.invoices| && SettledBy(s, k, i) :: s.invoices[i].status != Issued)
  }

  lemma WriteKeepsSettlings(s: State, k: nat)
    requires SettlingsOk(s) && Enabled(s, WriteSettle(k))
    ensures SettlingsOk(Step(s, WriteSettle(k)))
  {
    var s' := Step(s, WriteSettle(k));
    assert SettledBy(s', k, s.settlings[k].invoice);
    assert forall m: nat, i: nat | m != k :: SettledBy(s', m, i) <==> SettledBy(s, m, i);
    forall i | 0 <= i < |s'.invoices| && s'.invoices[i].status != Issued
      ensures exists m: nat :: SettledBy(s', m, i) && s'.settlings[m].status == s'.invoices[i].status
    {
      if i != s.settlings[k].invoice {
        var m: nat :| SettledBy(s, m, i) && s.settlings[m].status == s.invoices[i].status;
        assert SettledBy(s', m, i);
      }
    }
  }

  /** New invoices are issued, and a settling begins unwritten. */
  lemma FrameKeepsSettlings(s: State, s': State)
    requires SettlingsOk(s) && s.invoices <= s'.invoices
    requires forall i | |s.invoices| <= i < |s'.invoices| :: s'.invoices[i].status == Issued
    requires |s.settlings| <= |s'.settlings| && s'.settlings[..|s.settlings|] == s.settlings
    requires forall k | |s.settlings| <= k < |s'.settlings| ::
      !s'.settlings[k].written && s'.settlings[k].status in {Paid, Void} && s'.settlings[k].invoice < |s'.invoices|
    ensures SettlingsOk(s')
  {
    assert forall k | 0 <= k < |s.settlings| :: s'.settlings[k] == s.settlings[k];
    assert forall m: nat, i: nat :: SettledBy(s', m, i) <==> SettledBy(s, m, i);
  }

  lemma NewInvoicesIssued(s: State, a: Action)
    requires Enabled(s, a) && !a.WriteSettle?
    ensures var s' := Step(s, a);
      && s.invoices <= s'.invoices && (forall i | |s.invoices| <= i < |s'.invoices| :: s'.invoices[i].status == Issued)
      && |s.settlings| <= |s'.settlings| && s'.settlings[..|s.settlings|] == s.settlings
      && (forall k | |s.settlings| <= k < |s'.settlings| ::
            !s'.settlings[k].written && s'.settlings[k].status in {Paid, Void} && s'.settlings[k].invoice < |s'.invoices|)
  {
  }

  lemma StepKeepsSettlings(s: State, a: Action)
    requires SettlingsOk(s) && Enabled(s, a)
    ensures SettlingsOk(Step(s, a))
  {
    hide Step, SettlingsOk;
    if a.WriteSettle? {
      WriteKeepsSettlings(s, a.k);
    } else {
      NewInvoicesIssued(s, a);
      FrameKeepsSettlings(s, Step(s, a));
    }
  }

  /**
   In every run an invoice is other than issued exactly when a payment or voiding of it has been written,
   and it is then paid or void as one of those has left it.
   */
  lemma {:induction false} SettledExactlyWhenWritten(run: seq<State>, n: nat, i: nat)
    requires IsRun(run) && n < |run|
    ensures SettlingsOk(run[n])
    ensures i < |run[n].invoices| ==> (run[n].invoices[i].status != Issued <==> exists k: nat :: SettledBy(run[n], k, i))
  {
    hide Step, Enabled, SettledBy;
    if n > 0 {
      SettledExactlyWhenWritten(run, n - 1, i);
      RunKeeps(run, n - 1);
      assert Next(run[n - 1], run[n - 1 + 1]);
      var a :| Enabled(run[n - 1], a) && Step(run[n - 1], a) == run[n];
      StepKeepsSettlings(run[n - 1], a);
    }
  }

  // ---- What a lost insert is answered with ----

  /** A call that loses to another request for its sale or key is answered with what beat it, never with an error. */
  lemma RaceIsExplained(run: seq<State>, i: nat, a: Action, c: nat)
    requires IsRun(run) && i < |run| && Enabled(run[i], a) && c < |run[i].calls|
    requires run[i].calls[c].pc == LookingForKey(Taken) || run[i].calls[c].pc == LookingForSale(Taken)
    ensures var pc := Step(run[i], a).calls[c].pc;
      pc == run[i].calls[c].pc || pc == LookingForSale(Taken)
      || (pc.Finished? && (pc.outcome.Replayed? || pc.outcome.AlreadyInvoiced?))
  {
    RunKeeps(run, i);
    assert CallOk(run[i], run[i].calls[c]);
  }

  /** A call that loses to another tenant for its number always ends in the database's own error. */
  lemma NumberLossIsAnError(run: seq<State>, i: nat, a: Action, c: nat)
    requires IsRun(run) && i < |run| && Enabled(run[i], a) && c < |run[i].calls|
    requires run[i].calls[c].pc == LookingForKey(NumberTaken) || run[i].calls[c].pc == LookingForSale(NumberTaken)
    ensures var pc := Step(run[i], a).calls[c].pc;
      pc == run[i].calls[c].pc || pc == LookingForSale(NumberTaken) || pc == Finished(DatabaseError)
  {
    RunKeeps(run, i);
    assert CallOk(run[i], run[i].calls[c]);
  }

  /** The next number is taken exactly when a tenant with the same short code has issued that very number. */
  lemma BlockedExactlyWhen(s: State)
    ensures Blocked(s) <==> exists f :: f in s.foreign && ShortCode(f.tenant) == ShortCode(s.tenant) && f.number == s.counter + 1
  {
    forall f | f in s.foreign
      ensures Render(SalesInvoice, f.tenant, f.number) == Render(SalesInvoice, s.tenant, s.counter + 1)
         <==> ShortCode(f.tenant) == ShortCode(s.tenant) && f.number == s.counter + 1
    {
      RenderInjective(SalesInvoice, f.tenant, f.number, SalesInvoice, s.tenant, s.counter + 1);
    }
  }

  /** From then on no creation of the tenant goes through: the counter is rolled back to the same number each time. */
  lemma BlockedForGood(run: seq<State>, i: nat, j: nat)
    requires IsRun(run) && i <= j < |run| && Blocked(run[i])
    ensures Blocked(run[j]) && run[j].counter == run[i].counter && |run[j].invoices| == |run[i].invoices|
  {
    InvoicesOnlyGrow(run, i, j);
    BlockedStays(run[i], run[j]);
  }

  /** Of the inserts for a sale and key that are free, exactly those go through whose number is free too. */
  lemma InsertSucceedsExactlyWhen(run: seq<State>, i: nat, c: nat)
    requires IsRun(run) && i < |run| && Enabled(run[i], RunInsert(c))
    requires !SaleInvoiced(run[i].invoices, run[i].calls[c].sale) && !KeyUsed(run[i].invoices, run[i].calls[c].key)
    ensures Step(run[i], RunInsert(c)).calls[c].pc ==
      if Blocked(run[i]) then LookingForKey(NumberTaken) else Finished(Created(run[i].counter))
  {
    RunKeeps(run, i);
  }

  // ---- Refused replays ----

  /** The call is told that its sale is already invoiced, by the very invoice of its own key. */
  ghost predicate ReplayRefused(s: State, c: nat) {
    && c < |s.calls| && s.calls[c].pc == Finished(AlreadyInvoiced)
    && IsReplay(s.invoices, s.calls[c].sale, s.calls[c].key)
  }

  /**
   A look-up by sale, the one of the transaction or the one of the recovery, refuses a replay exactly when
   the invoice of that sale and key was committed after the call last looked for its key.
   */
  lemma RefusedExactlyInWindow(run: seq<State>, i: nat, a: Action)
    requires IsRun(run) && i < |run| && Enabled(run[i], a) && (a.RunLookUpSale? || a.FindBySale?)
    ensures var (s, call) := (run[i], run[i].calls[a.c]);
      ReplayRefused(Step(s, a), a.c) <==>
      call.key.Some? && exists k :: call.seen <= k < |s.invoices| && s.invoices[k].sale == call.sale && s.invoices[k].key == call.key
  {
    RunKeeps(run, i);
    var s, call := run[i], run[i].calls[a.c];
    assert CallOk(s, call);
    if IsReplay(s.invoices, call.sale, call.key) {
      var k :| 0 <= k < |s.invoices| && s.invoices[k].sale == call.sale && s.invoices[k].key == call.key;
      assert call.seen <= k;
    }
  }

  /** The recovery refuses a replay only when the insert was broken off, never when a constraint turned it down. */
  lemma RecoveryRefusesOnlyBrokenOff(run: seq<State>, i: nat, c: nat)
    requires IsRun(run) && i < |run| && Enabled(run[i], FindBySale(c)) && ReplayRefused(Step(run[i], FindBySale(c)), c)
    ensures run[i].calls[c].pc.cause.BrokenOff?
  {
    RunKeeps(run, i);
    var s, s', call := run[i], Step(run[i], FindBySale(c)), run[i].calls[c];
    assert CallOk(s, call);
    assert s'.invoices == s.invoices && s'.calls[c].sale == call.sale && s'.calls[c].key == call.key;
    assert IsReplay(s.invoices, call.sale, call.key);
    assert call.pc == LookingForSale(call.pc.cause);
  }

  function Last(run: seq<State>): State
    requires run != []
  {
    run[|run| - 1]
  }

  lemma Extend(run: seq<State>, a: Action) returns (run': seq<State>)
    requires IsRun(run) && Enabled(Last(run), a)
    ensures run' == run + [Step(Last(run), a)] && IsRun(run') && Last(run') == Step(Last(run), a)
  {
    run' := run + [Step(Last(run), a)];
    forall i | 0 <= i < |run'| - 1
      ensures Next(run'[i], run'[i + 1])
    {
      if i < |run| - 1 {
        assert Next(run[i], run[i + 1]);
      }
    }
  }

  /** The settling begun after `run` is due to write, and finds its invoice settled the other way. */
  ghost predicate SettlesSettled(run: seq<State>, run': seq<State>, k: nat) {
    && run != [] && |run| < |run'| && k == |Last(run).settlings| && k < |run'[|run|].settlings|
    && Enabled(Last(run'), WriteSettle(k))
    && var settling := Last(run').settlings[k];
       Last(run').invoices[settling.invoice].status != Issued && Last(run').invoices[settling.invoice].status != settling.status
  }

  /**
   Every payment or voiding that is not refused at its read can write over the other: it has read an issued
   invoice, and some continuation settles that the other way before the write.
   */
  lemma SettleMayOverwriteExactlyWhen(run: seq<State>, i: nat, status: InvoiceStatus)
    requires IsRun(run) && Enabled(Last(run), BeginSettle(i, status))
    ensures (exists run': seq<State>, k: nat | IsRun(run') && run + [Step(Last(run), BeginSettle(i, status))] <= run' :: SettlesSettled(run, run', k))
       <==> Last(run).invoices[i].status == Issued
  {
    if Last(run).invoices[i].status == Issued {
      var k := |Last(run).settlings|;
      var run' := Extend(run, BeginSettle(i, status));
      run' := Extend(run', BeginSettle(i, if status == Paid then Void else Paid));
      run' := Extend(run', WriteSettle(k + 1));
      assert SettlesSettled(run, run', k);
    }
  }

  /** A call keeps its sale and key, and what it has seen only grows. */
  lemma StepKeepsCalls(s: State, a: Action, c: nat)
    requires Inv(s) && Enabled(s, a) && c < |s.calls|
    ensures var s' := Step(s, a);
      c < |s'.calls| && s'.calls[c].sale == s.calls[c].sale && s'.calls[c].key == s.calls[c].key && s.calls[c].seen <= s'.calls[c].seen
  {
    assert CallOk(s, s.calls[c]);
  }

  lemma {:induction false} CallsStay(run: seq<State>, i: nat, j: nat, c: nat)
    requires IsRun(run) && i <= j < |run| && c < |run[i].calls|
    ensures c < |run[j].calls|
    ensures run[j].calls[c].sale == run[i].calls[c].sale && run[j].calls[c].key == run[i].calls[c].key
    ensures run[i].calls[c].seen <= run[j].calls[c].seen
  {
    hide Step, Enabled, Inv;
    if i == j {
    } else {
      CallsStay(run, i, j - 1, c);
      RunKeeps(run, j - 1);
      assert Next(run[j - 1], run[j - 1 + 1]);
      var a :| Enabled(run[j - 1], a) && Step(run[j - 1], a) == run[j];
      StepKeepsCalls(run[j - 1], a, c);
    }
  }

  /** The creation can go through: it has a key, and nothing is there yet of what it needs. */
  ghost predicate IsFirst(s: State, sale: nat, key: Option<string>) {
    key.Some? && !KeyUsed(s.invoices, key) && !SaleInvoiced(s.invoices, sale) && !Blocked(s)
  }

  /** A refused replay began when neither its key nor its sale had an invoice. */
  lemma RefusedBeganFirst(run: seq<State>, i: nat, j: nat, c: nat)
    requires IsRun(run) && i <= j < |run| && c < |run[i].calls| && run[i].calls[c].seen == |run[i].invoices|
    requires ReplayRefused(run[j], c)
    ensures IsFirst(run[i], run[i].calls[c].sale, run[i].calls[c].key)
  {
    var s, s', call := run[i], run[j], run[j].calls[c];
    RunKeeps(run, j);
    CallsStay(run, i, j, c);
    InvoicesOnlyGrow(run, i, j);
    assert CallOk(s', call);
    var k :| 0 <= k < |s'.invoices| && s'.invoices[k].sale == call.sale && s'.invoices[k].key == call.key;
    assert call.seen <= k;
    assert forall m | 0 <= m < |s.invoices| :: m < k && s.invoices[m].key == s'.invoices[m].key && s.invoices[m].sale == s'.invoices[m].sale;
  }

  /** The call has missed its key and seen its sale confirmed. */
  ghost predicate AboutToLookUpSale(s: State, c: nat, sale: nat, key: Option<string>) {
    c < |s.calls| && s.calls[c] == Call(sale, key, SaleSeen, |s.invoices|) && IsFirst(s, sale, key)
    && sale in s.confirmed && s.confirmed[sale]
  }

  /** A new call goes up to its look-up by sale, over rows that stay as they are. */
  lemma ReachSale(run: seq<State>, c: nat) returns (run': seq<State>)
    requires IsRun(run) && c < |Last(run).calls|
    requires var (s, call) := (Last(run), Last(run).calls[c]);
      call.pc == Begun && IsFirst(s, call.sale, call.key) && call.sale in s.confirmed && s.confirmed[call.sale]
    ensures IsRun(run') && run <= run'
    ensures Last(run') == Last(run).(calls := Last(run).calls[c := Last(run).calls[c].(pc := SaleSeen, seen := |Last(run).invoices|)])
  {
    run' := Extend(run, RunLookUpKey(c));
    run' := Extend(run', RunReadSale(c));
  }

  /** The sale becomes known and confirmed, if it is not yet. */
  lemma MakeConfirmed(run: seq<State>, sale: nat) returns (run': seq<State>)
    requires IsRun(run)
    ensures IsRun(run') && run <= run' && sale in Last(run').confirmed && Last(run').confirmed[sale]
    ensures Last(run') == Last(run).(confirmed := Last(run').confirmed)
  {
    run' := run;
    if sale !in Last(run).confirmed {
      run' := Extend(run', AddSale(sale));
    }
    run' := Extend(run', ConfirmSale(sale));
  }

  /** A second request under the same key overtakes the first between its two look-ups. */
  lemma Overtake(run: seq<State>, c: nat, sale: nat, key: Option<string>) returns (run': seq<State>)
    requires IsRun(run) && AboutToLookUpSale(Last(run), c, sale, key)
    ensures IsRun(run') && run <= run' && ReplayRefused(Last(run'), c)
  {
    var s, d := Last(run), |Last(run).calls|;
    run' := Extend(run, Begin(sale, key));
    run' := ReachSale(run', d);
    run' := Extend(run', RunLookUpSale(d));
    run' := Extend(run', RunInsert(d));
    assert Last(run').invoices == s.invoices + [Invoice(sale, s.counter + 1, key, Issued)];
    assert Last(run').invoices[|s.invoices|].sale == sale;
    run' := Extend(run', RunLookUpSale(c));
  }

  lemma FirstMayBeRefused(run: seq<State>, sale: nat, key: Option<string>) returns (run': seq<State>)
    requires IsRun(run) && IsFirst(Last(run), sale, key)
    ensures IsRun(run') && run + [Step(Last(run), Begin(sale, key))] <= run'
    ensures ReplayRefused(Last(run'), |Last(run).calls|)
  {
    var c := |Last(run).calls|;
    run' := Extend(run, Begin(sale, key));
    run' := MakeConfirmed(run', sale);
    run' := ReachSale(run', c);
    run' := Overtake(run', c, sale, key);
  }

  /**
   The rule that a replay is never told that its sale is already invoiced: whether a request can still be
   is settled when it begins. It can exactly when neither its key nor its sale has an invoice by then and
   the tenant's next number is free, that is, when the request it repeats is still under way.
   */
  lemma ReplayMayBeRefusedExactlyWhen(run: seq<State>, sale: nat, key: Option<string>)
    requires IsRun(run)
    ensures (exists run' | IsRun(run') && run + [Step(Last(run), Begin(sale, key))] <= run' ::
               ReplayRefused(Last(run'), |Last(run).calls|))
       <==> IsFirst(Last(run), sale, key)
  {
    var c, begun := |Last(run).calls|, run + [Step(Last(run), Begin(sale, key))];
    if run' :| IsRun(run') && begun <= run' && ReplayRefused(Last(run'), c) {
      assert run'[|run|] == begun[|run|];
      RefusedBeganFirst(run', |run|, |run'| - 1, c);
    }
    if IsFirst(Last(run), sale, key) {
      var run' := FirstMayBeRefused(run, sale, key);
      assert IsRun(run') && begun <= run' && ReplayRefused(Last(run'), c);
    }
  }

  // ---- The repository ----

  /**
   What the others do in the pauses of one creation: the sales as they stand when its sale is read, the
   foreign numbers at its insert, and the invoices they commit before its look-up by sale, before its
   insert, and before each look-up of its recovery.
   */
  datatype Pauses = Pauses(
    confirmed: map<nat, bool>,
    foreign: set<Foreign>,
    beforeSale: seq<Invoice>,
    beforeInsert: seq<Invoice>,
    beforeKey: seq<Invoice>,
    beforeLast: seq<Invoice>)

  lemma PrefixNumbersOk(invoices: seq<Invoice>, more: seq<Invoice>)
    requires NumbersOk(invoices + more, |invoices + more|)
    ensures NumbersOk(invoices, |invoices|)
  {
    assert forall i | 0 <= i < |invoices| :: (invoices + more)[i] == invoices[i];
  }

  /** What took the sale or the key is still there when the recovery looks. */
  lemma RaceLost(before: seq<Invoice>, gap: seq<Invoice>, gap': seq<Invoice>, sale: nat, key: Option<string>)
    requires SaleInvoiced(before, sale) || KeyUsed(before, key)
    ensures KeyUsed(before + gap, key) || SaleInvoiced(before + gap + gap', sale)
  {
    LookupsPersist(before, before + gap, sale, key);
    LookupsPersist(before, before + gap + gap', sale, key);
  }

  /** The rows after a creation, and its outcome, statement by statement. */
  function CreateAmid(tenant: Tenant, invoices: seq<Invoice>, sale: nat, key: Option<string>, fails: bool, p: Pauses): (seq<Invoice>, Outcome) {
    var atSale, atInsert := invoices + p.beforeSale, invoices + p.beforeSale + p.beforeInsert;
    if LookUpKey(invoices, key).Finished? then (invoices, LookUpKey(invoices, key).outcome)
    else if ReadSale(p.confirmed, sale).Finished? then (atSale, ReadSale(p.confirmed, sale).outcome)
    else if LookUpSale(atSale, sale).Finished? then (atSale, AlreadyInvoiced)
    else
      var (inserted, _, pc) := Insert(tenant, p.foreign, atInsert, |atInsert|, sale, key);
      if !fails && pc.Finished? then (inserted, pc.outcome) else RecoverAmid(atInsert, sale, key, p.beforeKey, p.beforeLast)
  }

  /** Two look-ups, each in a transaction of its own. */
  function RecoverAmid(invoices: seq<Invoice>, sale: nat, key: Option<string>, gap: seq<Invoice>, gap': seq<Invoice>): (seq<Invoice>, Outcome) {
    if KeyUsed(invoices + gap, key) then (invoices + gap, Replayed(FindKey(invoices + gap, key)))
    else (invoices + gap + gap', RecoverBySale(invoices + gap + gap', sale).outcome)
  }

  /** A creation that succeeds adds one invoice after those of the others: issued, for its sale and key, under the next number. */
  lemma CreateMeans(tenant: Tenant, invoices: seq<Invoice>, sale: nat, key: Option<string>, fails: bool, p: Pauses)
    ensures var (invoices', r) := CreateAmid(tenant, invoices, sale, key, fails, p);
      var others := invoices + p.beforeSale + p.beforeInsert;
      && (r.Created? ==> r.index == |others| && invoices' == others + [Invoice(sale, |others| + 1, key, Issued)])
      && (r.SaleNotFound? ==> sale !in p.confirmed)
      && (r.SaleNotConfirmed? ==> sale in p.confirmed && !p.confirmed[sale])
      && (r.Created? || r.AlreadyInvoiced? ==> sale in p.confirmed && p.confirmed[sale])
      && (r.AlreadyInvoiced? ==> SaleInvoiced(invoices', sale))
      && (r.Replayed? ==> r.index < |invoices'| && key.Some? && invoices'[r.index].key == key)
  {
  }

  /**
   A creation answers with a database error exactly when its insert was broken off, or its number was
   taken, and nothing of its key or sale is there when it looks.
   */
  lemma CreateFailsExactlyWhen(tenant: Tenant, invoices: seq<Invoice>, sale: nat, key: Option<string>, fails: bool, p: Pauses)
    ensures var (atSale, atInsert) := (invoices + p.beforeSale, invoices + p.beforeSale + p.beforeInsert);
      CreateAmid(tenant, invoices, sale, key, fails, p).1.DatabaseError?
      <==>
      && LookUpKey(invoices, key) == KeyMissed && ReadSale(p.confirmed, sale) == SaleSeen && LookUpSale(atSale, sale) == Checked
      && (fails || (!SaleInvoiced(atInsert, sale) && !KeyUsed(atInsert, key) && NumberUsed(tenant, p.foreign, |atInsert|)))
      && !KeyUsed(atInsert + p.beforeKey, key) && !SaleInvoiced(atInsert + p.beforeKey + p.beforeLast, sale)
  {
    var atInsert := invoices + p.beforeSale + p.beforeInsert;
    if SaleInvoiced(atInsert, sale) || KeyUsed(atInsert, key) {
      RaceLost(atInsert, p.beforeKey, p.beforeLast, sale, key);
    }
  }

  datatype Settlement = Settled | NotIssued | InvoiceNotFound

  class Repository {
    const tenant: Tenant
    var invoices: seq<Invoice>
    var counter: nat

    ghost predicate Valid()
      reads this
    {
      NumbersOk(invoices, counter)
    }

    constructor (tenant: Tenant)
      ensures Valid() && this.tenant == tenant && invoices == []
    {
      this.tenant := tenant;
      invoices, counter := [], 0;
    }

    method FindByKey(key: Option<string>) returns (found: Option<nat>)
      requires NumbersOk(invoices, |invoices|)
      ensures found == if KeyUsed(invoices, key) then Some(FindKey(invoices, key)) else None
    {
      if key.Some? {
        for i := 0 to |invoices|
          invariant forall k | 0 <= k < i :: invoices[k].key != key
        {
          if invoices[i].key == key {
            assert FindKey(invoices, key) == i;
            return Some(i);
          }
        }
      }
      return None;
    }

    method IsInvoiced(sale: nat) returns (found: bool)
      ensures found == SaleInvoiced(invoices, sale)
    {
      for i := 0 to |invoices|
        invariant forall k | 0 <= k < i :: invoices[k].sale != sale
      {
        if invoices[i].sale == sale {
          return true;
        }
      }
      return false;
    }

    /** The constraints on sale, key and number: a violation rolls back the counter too. */
    method RunInsert(sale: nat, key: Option<string>, foreign: set<Foreign>) returns (pc: Pc)
      requires Valid()
      modifies this`invoices, this`counter
      ensures Valid() && (invoices, counter, pc) == Insert(tenant, foreign, old(invoices), old(counter), sale, key)
    {
      var savepoint := counter;
      counter := counter + 1;
      var saleTaken := IsInvoiced(sale);
      var keyTaken := FindByKey(key);
      if saleTaken || keyTaken.Some? {
        counter := savepoint;
        return LookingForKey(Taken);
      }
      var number := Render(SalesInvoice, tenant, counter);
      if exists f | f in foreign :: Render(SalesInvoice, f.tenant, f.number) == number {
        counter := savepoint;
        return LookingForKey(NumberTaken);
      }
      invoices := invoices + [Invoice(sale, counter, key, Issued)];
      return Finished(Created(|invoices| - 1));
    }

    method RunRecovery(sale: nat, key: Option<string>, gap: seq<Invoice>, gap': seq<Invoice>) returns (r: Outcome)
      requires Valid() && NumbersOk(invoices + gap + gap', counter + |gap| + |gap'|)
      modifies this`invoices, this`counter
      ensures Valid() && (invoices, r) == RecoverAmid(old(invoices), sale, key, gap, gap')
    {
      PrefixNumbersOk(invoices + gap, gap');
      Others(gap);
      var existing := FindByKey(key);
      if existing.Some? {
        return Replayed(existing.value);
      }
      Others(gap');
      var invoiced := IsInvoiced(sale);
      return if invoiced then AlreadyInvoiced else DatabaseError;
    }

    method Create(sale: nat, key: Option<string>, fails: bool, p: Pauses) returns (r: Outcome)
      requires Valid()
      requires var all := invoices + p.beforeSale + p.beforeInsert + p.beforeKey + p.beforeLast; NumbersOk(all, |all|)
      modifies this`invoices, this`counter
      ensures Valid() && (invoices, r) == CreateAmid(tenant, old(invoices), sale, key, fails, p)
    {
      hide FindKey, KeyUsed, SaleInvoiced, NumberUsed, NumbersOk;
      CounterIsSize();
      PrefixNumbersOk(invoices + p.beforeSale + p.beforeInsert + p.beforeKey, p.beforeLast);
      PrefixNumbersOk(invoices + p.beforeSale + p.beforeInsert, p.beforeKey);
      PrefixNumbersOk(invoices + p.beforeSale, p.beforeInsert);
      var existing := FindByKey(key);
      if existing.Some? {
        return Replayed(existing.value);
      }
      Others(p.beforeSale);
      if sale !in p.confirmed {
        return SaleNotFound;
      }
      if !p.confirmed[sale] {
        return SaleNotConfirmed;
      }
      var invoiced := IsInvoiced(sale);
      if invoiced {
        return AlreadyInvoiced;
      }
      Others(p.beforeInsert);
      if !fails {
        var pc := RunInsert(sale, key, p.foreign);
        if pc.Finished? {
          return pc.outcome;
        }
      }
      r := RunRecovery(sale, key, p.beforeKey, p.beforeLast);
    }

    lemma CounterIsSize()
      requires Valid()
      ensures counter == |invoices|
    {
    }

    method Others(committed: seq<Invoice>)
      requires NumbersOk(invoices + committed, counter + |committed|)
      modifies this`invoices, this`counter
      ensures invoices == old(invoices) + committed && counter == old(counter) + |committed| && Valid()
    {
      invoices, counter := invoices + committed, counter + |committed|;
    }

    /**
     Paying and voiding differ in the status they set and in nothing else. Between the read and the write
     the others make the invoices `meanwhile`.
     */
    method Settle(i: nat, status: InvoiceStatus, meanwhile: seq<Invoice>) returns (r: Settlement)
      requires Valid() && status != Issued
      requires InvoicesEvolve(invoices, meanwhile) && NumbersOk(meanwhile, |meanwhile|)
      modifies this`invoices, this`counter
      ensures Valid() && InvoicesEvolve(old(invoices), invoices)
      ensures r.InvoiceNotFound? <==> i >= |old(invoices)|
      ensures r.Settled? <==> i < |old(invoices)| && old(invoices)[i].status == Issued
      ensures invoices == if r.Settled? then meanwhile[i := meanwhile[i].(status := status)] else old(invoices)
    {
      if i >= |invoices| {
        return InvoiceNotFound;
      }
      if invoices[i].status != Issued {
        return NotIssued;
      }
      invoices, counter := meanwhile, |meanwhile|;
      invoices := invoices[i := invoices[i].(status := status)];
      return Settled;
    }
  }
}
