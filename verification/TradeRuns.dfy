/**
 Runs of the trade side of one tenant: drafts, cancellations, manual movements and confirmations from
 any number of callers, each confirmation being up to three serializable attempts between which the
 others go on.
 */
module TradeRuns {
  import opened Wrappers
  import opened Sums
  import opened Stock
  import opened Trade
  import Retry = SerializableRetry

  /** A confirmation in progress; `commits` is history: how many of its attempts committed. */
  datatype Call = Call(doc: nat, attempt: nat, result: Option<Result<nat>>, commits: nat)

  /** A cancellation that has read its document as a draft. */
  datatype Cancellation = Cancellation(doc: nat, written: bool)

  /** `byHand` is history: the movements recorded manually. */
  datatype State = State(books: Books, calls: seq<Call>, cancels: seq<Cancellation>, byHand: seq<Movement>)

  const Initial := State(Books(map[], [], []), [], [], [])

  datatype Action =
    | AddProduct(product: nat, isTracked: bool)
    | SetTracked(product: nat, isTracked: bool)
    | CreateDraft(side: Side, lines: seq<Line>)
    | BeginCancel(id: nat)
    | WriteCancel(k: nat)
    | Record(m: Movement)
    | BeginConfirm(id: nat)
    | RollBack(c: nat)
    | RunAttempt(c: nat)

  predicate Running(s: State, c: nat) {
    c < |s.calls| && s.calls[c].result.None?
  }

  predicate Enabled(s: State, a: Action) {
    match a
    case AddProduct(product, _) => product !in s.books.tracked
    case SetTracked(product, _) => product in s.books.tracked
    case CreateDraft(_, lines) => LinesOk(lines, s.books.tracked)
    case BeginCancel(_) => true
    case WriteCancel(k) => k < |s.cancels| && !s.cancels[k].written && s.cancels[k].doc < |s.books.docs|
    case Record(m) => WellFormed(m)
    case BeginConfirm(_) => true
    case RollBack(c) => Running(s, c)
    case RunAttempt(c) => Running(s, c)
  }

  function Step(s: State, a: Action): State
    requires Enabled(s, a)
  {
    var b := s.books;
    match a
    case AddProduct(product, isTracked) => s.(books := b.(tracked := b.tracked[product := isTracked]))
    case SetTracked(product, isTracked) => s.(books := b.(tracked := b.tracked[product := isTracked]))
    case CreateDraft(side, lines) => s.(books := b.(docs := b.docs + [Doc(side, lines, Draft, [])]))
    case BeginCancel(id) => if ReadForCancel(b, id).Ok? then s.(cancels := s.cancels + [Cancellation(id, false)]) else s
    case WriteCancel(k) =>
      s.(books := WriteCancelled(b, s.cancels[k].doc), cancels := s.cancels[k := s.cancels[k].(written := true)])
    case Record(m) =>
      if MoveByHand(b, m).Ok? then
        s.(books := MoveByHand(b, m).value, byHand := s.byHand + if KeyTaken(b.ledger, m.key) then [] else [m])
      else s
    case BeginConfirm(id) => s.(calls := s.calls + [Call(id, 1, None, 0)])
    case RollBack(c) =>
      var call := s.calls[c];
      if call.attempt < Retry.DEFAULT_MAX_ATTEMPTS then s.(calls := s.calls[c := call.(attempt := call.attempt + 1)])
      else s.(calls := s.calls[c := call.(result := Some(Err(ConcurrencyConflict)))])
    case RunAttempt(c) =>
      var call := s.calls[c];
      match Confirm(b, call.doc) {
        case Ok(b') => s.(books := b', calls := s.calls[c := call.(result := Some(Ok(call.doc)), commits := call.commits + 1)])
        case Err(error) => s.(calls := s.calls[c := call.(result := Some(Err(error)))])
      }
  }

  ghost predicate Next(s: State, s': State) {
    exists a :: Enabled(s, a) && Step(s, a) == s'
  }

  ghost predicate IsRun(run: seq<State>) {
    run != [] && run[0] == Initial && forall i | 0 <= i < |run| - 1 :: Next(run[i], run[i + 1])
  }

  // ---- The balance of stock ----

  function Flow(doc: Doc, p: nat): int {
    if doc.side == Purchase then Demand(doc.posted, p) else -Demand(doc.posted, p)
  }

  /** What the documents have moved: purchases in, sales out, each document counted once. */
  function PostedFlow(docs: seq<Doc>, p: nat): int {
    if docs == [] then 0 else PostedFlow(docs[..|docs| - 1], p) + Flow(docs[|docs| - 1], p)
  }

  lemma {:induction false} PostedFlowUpdate(docs: seq<Doc>, id: nat, doc: Doc, p: nat)
    requires id < |docs|
    ensures PostedFlow(docs[id := doc], p) == PostedFlow(docs, p) - Flow(docs[id], p) + Flow(doc, p)
  {
    var n := |docs| - 1;
    if id == n {
      assert docs[id := doc][..n] == docs[..n];
    } else {
      assert docs[id := doc][..n] == docs[..n][id := doc];
      PostedFlowUpdate(docs[..n], id, doc, p);
    }
  }

  ghost predicate DocsOk(b: Books) {
    forall id | 0 <= id < |b.docs| ::
      LinesOk(b.docs[id].lines, b.tracked) && (b.docs[id].status == Draft ==> b.docs[id].posted == [])
  }

  ghost predicate Conserved(s: State, p: nat) {
    OnHand(s.books.ledger, p) == PostedFlow(s.books.docs, p) + OnHand(s.byHand, p)
  }

  /** Call `c` has committed the confirmation of document `id`. */
  ghost predicate ConfirmedBy(s: State, c: nat, id: nat) {
    c < |s.calls| && s.calls[c].commits == 1 && s.calls[c].doc == id
  }

  /** A document is confirmed by one call, and each call commits once at most. */
  ghost predicate CallsOk(s: State) {
    && (forall c | 0 <= c < |s.calls| ::
          && 1 <= s.calls[c].attempt <= Retry.DEFAULT_MAX_ATTEMPTS
          && s.calls[c].commits == (if s.calls[c].result == Some(Ok(s.calls[c].doc)) then 1 else 0)
          && (s.calls[c].commits == 1 ==> s.calls[c].doc < |s.books.docs| && s.books.docs[s.calls[c].doc].status != Draft))
    && (forall c: nat, d: nat, id: nat | ConfirmedBy(s, c, id) && ConfirmedBy(s, d, id) :: c == d)
    && (forall id | 0 <= id < |s.books.docs| && (s.books.docs[id].status == Confirmed || s.books.docs[id].posted != []) ::
          exists c: nat :: ConfirmedBy(s, c, id))
  }

  /** A cancellation has written over a confirmation: the document is cancelled, and its stock has moved. */
  ghost predicate Overwritten(s: State, id: nat) {
    id < |s.books.docs| && s.books.docs[id].status == Cancelled && exists c: nat :: ConfirmedBy(s, c, id)
  }

  ghost predicate Inv(s: State) {
    DocsOk(s.books) && NonNegative(s.books.ledger) && (forall p: nat :: Conserved(s, p)) && CallsOk(s)
  }

  lemma ConfirmKeeps(s: State, c: nat)
    requires Inv(s) && Enabled(s, RunAttempt(c)) && Confirm(s.books, s.calls[c].doc).Ok?
    ensures Inv(Step(s, RunAttempt(c)))
  {
    var s', b, id := Step(s, RunAttempt(c)), s.books, s.calls[c].doc;
    var doc := b.docs[id];
    PostKeepsNonNegative(b.ledger, b.tracked, doc.side, doc.lines);
    forall p: nat
      ensures Conserved(s', p)
    {
      assert Conserved(s, p);
      PostMoves(b.ledger, b.tracked, doc.side, doc.lines, p);
      PostedFlowUpdate(b.docs, id, s'.books.docs[id], p);
    }
    assert ConfirmedBy(s', c, id);
    assert forall d: nat, other: nat :: ConfirmedBy(s', d, other) <==> ConfirmedBy(s, d, other) || (d == c && other == id);
  }

  /** A movement that passes the guard, appended to the ledger and to the manual history. */
  lemma MovementAddedKeeps(s: State, m: Movement)
    requires Inv(s) && Append(s.books.ledger, s.books.tracked, m).Ok?
    ensures Inv(s.(books := s.books.(ledger := s.books.ledger + [m]), byHand := s.byHand + [m]))
  {
    var s' := s.(books := s.books.(ledger := s.books.ledger + [m]), byHand := s.byHand + [m]);
    AppendKeepsNonNegative(s.books.ledger, s.books.tracked, m);
    forall p: nat
      ensures Conserved(s', p)
    {
      assert Conserved(s, p);
      OnHandAfter(s.books.ledger, m, p);
      OnHandAfter(s.byHand, m, p);
    }
    CallsFrame(s, s');
  }

  lemma RecordKeeps(s: State, m: Movement)
    requires Inv(s) && Enabled(s, Record(m))
    ensures Inv(Step(s, Record(m)))
  {
    hide Inv;
    if MoveByHand(s.books, m).Ok? && !KeyTaken(s.books.ledger, m.key) {
      MovementAddedKeeps(s, m);
    } else {
      assert s.byHand + [] == s.byHand;
      assert Step(s, Record(m)) == s;
    }
  }

  lemma CallsFrame(s: State, s': State)
    requires CallsOk(s) && s'.calls == s.calls && s'.books.docs == s.books.docs
    ensures CallsOk(s')
  {
    assert forall d: nat, id: nat :: ConfirmedBy(s', d, id) <==> ConfirmedBy(s, d, id);
  }

  lemma CreateKeeps(s: State, side: Side, lines: seq<Line>)
    requires Inv(s) && Enabled(s, CreateDraft(side, lines))
    ensures Inv(Step(s, CreateDraft(side, lines)))
  {
    var s' := Step(s, CreateDraft(side, lines));
    assert s'.books.docs[..|s.books.docs|] == s.books.docs;
    assert forall p: nat :: Conserved(s, p) ==> Conserved(s', p);
    assert forall d: nat, id: nat :: ConfirmedBy(s', d, id) <==> ConfirmedBy(s, d, id);
  }

  lemma CancelKeeps(s: State, k: nat)
    requires Inv(s) && Enabled(s, WriteCancel(k))
    ensures Inv(Step(s, WriteCancel(k)))
  {
    var s', id := Step(s, WriteCancel(k)), s.cancels[k].doc;
    forall p: nat
      ensures Conserved(s', p)
    {
      assert Conserved(s, p);
      PostedFlowUpdate(s.books.docs, id, s'.books.docs[id], p);
    }
    assert forall d: nat, other: nat :: ConfirmedBy(s', d, other) <==> ConfirmedBy(s, d, other);
  }

  lemma BeginCancelKeeps(s: State, id: nat)
    requires Inv(s)
    ensures Inv(Step(s, BeginCancel(id)))
  {
    var s' := Step(s, BeginCancel(id));
    assert forall p: nat :: Conserved(s, p) ==> Conserved(s', p);
    CallsFrame(s, s');
  }

  lemma CallKeeps(s: State, a: Action)
    requires Inv(s) && Enabled(s, a)
    requires a.BeginConfirm? || a.RollBack? || (a.RunAttempt? && Confirm(s.books, s.calls[a.c].doc).Err?)
    ensures Inv(Step(s, a))
  {
    var s' := Step(s, a);
    assert forall p: nat :: Conserved(s, p) ==> Conserved(s', p);
    assert forall d: nat, id: nat :: ConfirmedBy(s', d, id) <==> ConfirmedBy(s, d, id);
  }

  lemma ProductKeeps(s: State, a: Action)
    requires Inv(s) && Enabled(s, a) && (a.AddProduct? || a.SetTracked?)
    ensures Inv(Step(s, a))
  {
    var s' := Step(s, a);
    assert forall p: nat :: Conserved(s, p) ==> Conserved(s', p);
    CallsFrame(s, s');
  }

  lemma StepKeeps(s: State, a: Action)
    requires Inv(s) && Enabled(s, a)
    ensures Inv(Step(s, a))
  {
    match a
    case CreateDraft(side, lines) => CreateKeeps(s, side, lines);
    case BeginCancel(id) => BeginCancelKeeps(s, id);
    case WriteCancel(k) => CancelKeeps(s, k);
    case Record(m) => RecordKeeps(s, m);
    case BeginConfirm(_) => CallKeeps(s, a);
    case RollBack(_) => CallKeeps(s, a);
    case RunAttempt(c) => if Confirm(s.books, s.calls[c].doc).Ok? { ConfirmKeeps(s, c); } else { CallKeeps(s, a); }
    case _ => ProductKeeps(s, a);
  }

  lemma {:induction false} RunKeeps(run: seq<State>, i: nat)
    requires IsRun(run) && i < |run|
    ensures Inv(run[i])
  {
    if i == 0 {
    } else {
      RunKeeps(run, i - 1);
      assert Next(run[i - 1], run[i - 1 + 1]);
      var a :| Enabled(run[i - 1], a) && Step(run[i - 1], a) == run[i];
      StepKeeps(run[i - 1], a);
    }
  }

  // ---- What every run guarantees ----

  /**
   Conservation: on hand is never negative, and is what confirmed purchases brought in, minus what
   confirmed sales took out, plus the manual movements. Drafts have moved nothing, and a cancelled document
   has only if its cancellation wrote over a confirmation, which still counts.
   */
  lemma StockIsConserved(run: seq<State>, i: nat, p: nat)
    requires IsRun(run) && i < |run|
    ensures var s := run[i];
      OnHand(s.books.ledger, p) >= 0
      && OnHand(s.books.ledger, p) == PostedFlow(s.books.docs, p) + OnHand(s.byHand, p)
      && forall id | 0 <= id < |s.books.docs| && s.books.docs[id].status != Confirmed && !Overwritten(s, id) ::
           s.books.docs[id].posted == []
  {
    RunKeeps(run, i);
    assert Conserved(run[i], p);
  }

  /**
   What a confirmed document moved, each line once: at the one step of the run that confirmed it, its
   lines on the products that were tracked then.
   */
  lemma {:induction false} PostedAtCommit(run: seq<State>, i: nat, id: nat) returns (k: nat)
    requires IsRun(run) && i < |run| && id < |run[i].books.docs| && run[i].books.docs[id].status == Confirmed
    ensures k < i && id < |run[k].books.docs| && run[k].books.docs[id].status == Draft
    ensures run[k + 1].books.docs == run[k].books.docs[id := run[i].books.docs[id]]
    ensures run[i].books.docs[id] == run[k].books.docs[id].(
      status := Confirmed, posted := TrackedLines(run[k].books.docs[id].lines, run[k].books.tracked))
  {
    if i == 0 {
      assert false;
    } else {
      assert Next(run[i - 1], run[i - 1 + 1]);
      if id < |run[i - 1].books.docs| && run[i - 1].books.docs[id].status != Draft {
        SettledDocumentsStay(run, i - 1, i, id);
        k := PostedAtCommit(run, i - 1, id);
      } else {
        var a :| Enabled(run[i - 1], a) && Step(run[i - 1], a) == run[i];
        ConfirmedByAttempt(run[i - 1], a, id);
        k := i - 1;
      }
    }
  }

  lemma ConfirmedByAttempt(s: State, a: Action, id: nat)
    requires Enabled(s, a) && id < |Step(s, a).books.docs| && Step(s, a).books.docs[id].status == Confirmed
    requires id < |s.books.docs| ==> s.books.docs[id].status == Draft
    ensures a.RunAttempt? && s.calls[a.c].doc == id && id < |s.books.docs|
    ensures Confirm(s.books, id).Ok? && Step(s, a).books == Confirm(s.books, id).value
  {
  }

  /** From any reachable state an attempt on a draft purchase commits. */
  lemma PurchaseNeverShort(run: seq<State>, i: nat, id: nat)
    requires IsRun(run) && i < |run| && id < |run[i].books.docs|
    requires run[i].books.docs[id].side == Purchase && run[i].books.docs[id].status == Draft
    ensures Confirm(run[i].books, id).Ok?
  {
    RunKeeps(run, i);
    PurchaseGoesThrough(run[i].books.ledger, run[i].books.tracked, run[i].books.docs[id].lines);
  }

  /** From any reachable state an attempt on a draft sale commits exactly when the stock covers it. */
  lemma SaleNeedsCover(run: seq<State>, i: nat, id: nat)
    requires IsRun(run) && i < |run| && id < |run[i].books.docs|
    requires run[i].books.docs[id].side == Sale && run[i].books.docs[id].status == Draft
    ensures Confirm(run[i].books, id).Ok? <==> Covered(run[i].books.ledger, run[i].books.tracked, run[i].books.docs[id].lines)
  {
    RunKeeps(run, i);
    SaleConfirmed(run[i].books, id, 0);
  }

  /**
   Over all its attempts a call commits once at most, exactly when it reports success; a document is
   confirmed, or was until a cancellation wrote over it, exactly when one call has committed it, and by
   that call alone.
   */
  lemma ConfirmedByOneCall(run: seq<State>, i: nat, c: nat, id: nat)
    requires IsRun(run) && i < |run| && c < |run[i].calls| && id < |run[i].books.docs|
    ensures var s := run[i];
      && s.calls[c].commits == (if s.calls[c].result == Some(Ok(s.calls[c].doc)) then 1 else 0)
      && (s.books.docs[id].status == Confirmed || Overwritten(s, id) <==> exists d: nat :: ConfirmedBy(s, d, id))
      && (forall d: nat, e: nat | ConfirmedBy(s, d, id) && ConfirmedBy(s, e, id) :: d == e)
  {
    RunKeeps(run, i);
  }

  // ---- Cancellations against confirmations ----

  /** A step leaves a document that is no draft alone, unless it is a cancellation writing over a confirmation. */
  lemma StepSettles(s: State, a: Action, id: nat)
    requires Enabled(s, a) && id < |s.books.docs| && s.books.docs[id].status != Draft
    ensures id < |Step(s, a).books.docs|
    ensures var (doc, doc') := (s.books.docs[id], Step(s, a).books.docs[id]);
      if a.WriteCancel? && s.cancels[a.k].doc == id then doc' == doc.(status := Cancelled) else doc' == doc
  {
  }

  /** What a confirmed or cancelled document moved, and its lines, stay; its status can only become cancelled. */
  lemma {:induction false} SettledDocumentsStay(run: seq<State>, i: nat, j: nat, id: nat)
    requires IsRun(run) && i <= j < |run| && id < |run[i].books.docs| && run[i].books.docs[id].status != Draft
    ensures id < |run[j].books.docs|
    ensures run[j].books.docs[id] == run[i].books.docs[id] || run[j].books.docs[id] == run[i].books.docs[id].(status := Cancelled)
  {
    hide Step, Enabled;
    if i == j {
    } else {
      SettledDocumentsStay(run, i, j - 1, id);
      assert Next(run[j - 1], run[j - 1 + 1]);
      var a :| Enabled(run[j - 1], a) && Step(run[j - 1], a) == run[j];
      StepSettles(run[j - 1], a, id);
    }
  }

  /** Up to a point of the run the document, once confirmed, stays so. */
  ghost predicate StaysConfirmed(run: seq<State>, n: nat, id: nat)
    requires n < |run|
  {
    forall i | 0 <= i < n && id < |run[i].books.docs| && run[i].books.docs[id].status == Confirmed ::
      id < |run[i + 1].books.docs| && run[i + 1].books.docs[id] == run[i].books.docs[id]
  }

  /** A document is overwritten after a step exactly when it was, or the step takes it from confirmed to cancelled. */
  lemma OverwrittenStep(s: State, a: Action, id: nat)
    requires Inv(s) && Enabled(s, a)
    ensures Overwritten(Step(s, a), id) <==>
      Overwritten(s, id)
      || (id < |s.books.docs| && s.books.docs[id].status == Confirmed && Step(s, a).books.docs[id].status == Cancelled)
  {
    var s' := Step(s, a);
    if id < |s.books.docs| {
      if s.books.docs[id].status != Draft {
        StepSettles(s, a, id);
      }
    }
    assert forall c: nat | ConfirmedBy(s, c, id) :: ConfirmedBy(s', c, id);
    if Overwritten(s', id) {
      var c: nat :| ConfirmedBy(s', c, id);
      assert ConfirmedBy(s, c, id);
    }
  }

  /** A confirmed document stays confirmed along a run exactly when no cancellation writes over it. */
  lemma {:induction false} StaysConfirmedExactlyWhen(run: seq<State>, n: nat, id: nat)
    requires IsRun(run) && n < |run|
    ensures StaysConfirmed(run, n, id) <==> !Overwritten(run[n], id)
  {
    hide Step, Enabled, Inv, Overwritten;
    if n == 0 {
      InitialNotOverwritten(id);
    } else {
      StaysConfirmedExactlyWhen(run, n - 1, id);
      RunKeeps(run, n - 1);
      assert Next(run[n - 1], run[n - 1 + 1]);
      var a :| Enabled(run[n - 1], a) && Step(run[n - 1], a) == run[n];
      OverwrittenStep(run[n - 1], a, id);
      if id < |run[n - 1].books.docs| && run[n - 1].books.docs[id].status == Confirmed {
        StepSettles(run[n - 1], a, id);
      }
      assert StaysConfirmed(run, n, id) <==>
        StaysConfirmed(run, n - 1, id)
        && (id < |run[n - 1].books.docs| && run[n - 1].books.docs[id].status == Confirmed ==>
              id < |run[n].books.docs| && run[n].books.docs[id] == run[n - 1].books.docs[id]);
    }
  }

  lemma InitialNotOverwritten(id: nat)
    ensures !Overwritten(Initial, id)
  {
  }

  function Last(run: seq<State>): State
    requires run != []
  {
    run[|run| - 1]
  }

  lemma Extend(run: seq<State>, a: Action) returns (run': seq<State>)
    requires IsRun(run) && Enabled(Last(run), a)
    ensures run' == run + [Step(Last(run), a)] && IsRun(run') && Last(run') == Step(Last(run), a)
  {
    run' := run + [Step(Last(run), a)];
    forall i | 0 <= i < |run'| - 1
      ensures Next(run'[i], run'[i + 1])
    {
      if i < |run| - 1 {
        assert Next(run[i], run[i + 1]);
      }
    }
  }

  /** A document that can be confirmed is, by one attempt. */
  lemma ConfirmNow(run: seq<State>, id: nat) returns (run': seq<State>)
    requires IsRun(run) && Confirm(Last(run).books, id).Ok?
    ensures IsRun(run') && run <= run' && Last(run').books == Confirm(Last(run).books, id).value
    ensures Last(run').cancels == Last(run).cancels
    ensures exists c: nat :: ConfirmedBy(Last(run'), c, id)
  {
    run' := Extend(run, BeginConfirm(id));
    run' := Extend(run', RunAttempt(|Last(run).calls|));
    assert ConfirmedBy(Last(run'), |Last(run).calls|, id);
  }

  /** A purchase of the same lines brings in whatever a draft sale asks for. */
  lemma Restock(run: seq<State>, id: nat) returns (run': seq<State>)
    requires IsRun(run) && id < |Last(run).books.docs| && Last(run).books.docs[id].status == Draft
    ensures IsRun(run') && run <= run' && id < |Last(run').books.docs| && Last(run').books.docs[id] == Last(run).books.docs[id]
    ensures Confirm(Last(run').books, id).Ok? && Last(run').cancels == Last(run).cancels
  {
    RunKeeps(run, |run| - 1);
    var b, lines, n := Last(run).books, Last(run).books.docs[id].lines, |Last(run).books.docs|;
    run' := Extend(run, CreateDraft(Purchase, lines));
    PurchaseNeverShort(run', |run'| - 1, n);
    run' := ConfirmNow(run', n);
    RunKeeps(run', |run'| - 1);
    if b.docs[id].side == Purchase {
      PurchaseNeverShort(run', |run'| - 1, id);
    } else {
      Restocked(b, lines);
      SaleNeedsCover(run', |run'| - 1, id);
    }
  }

  lemma Restocked(b: Books, lines: seq<Line>)
    requires NonNegative(b.ledger) && LinesOk(lines, b.tracked) && Post(b.ledger, b.tracked, Purchase, lines).Ok?
    ensures Covered(Post(b.ledger, b.tracked, Purchase, lines).value, b.tracked, lines)
  {
    forall i | 0 <= i < |lines| && IsTracked(b.tracked, lines[i].product)
      ensures Demand(lines, lines[i].product) <= OnHand(Post(b.ledger, b.tracked, Purchase, lines).value, lines[i].product)
    {
      PostMoves(b.ledger, b.tracked, Purchase, lines, lines[i].product);
      DemandOfTracked(lines, b.tracked, lines[i].product);
    }
  }

  /**
   Every cancellation that is not refused at its read can write over a confirmation: whatever document it
   has read as a draft, some continuation confirms it before the write.
   */
  lemma CancelMayOverwriteExactlyWhen(run: seq<State>, id: nat)
    requires IsRun(run) && id < |Last(run).books.docs|
    ensures (exists run': seq<State>, k: nat | IsRun(run') && run + [Step(Last(run), BeginCancel(id))] <= run' :: CancelsConfirmed(run, run', k, id))
       <==> Last(run).books.docs[id].status == Draft
  {
    if Last(run).books.docs[id].status == Draft {
      var run' := Extend(run, BeginCancel(id));
      run' := Restock(run', id);
      run' := ConfirmNow(run', id);
      assert CancelsConfirmed(run, run', |Last(run).cancels|, id);
    }
  }

  /** The cancellation begun after `run` is due to write, and finds its document confirmed. */
  ghost predicate CancelsConfirmed(run: seq<State>, run': seq<State>, k: nat, id: nat) {
    && run != [] && |run| < |run'| && k == |Last(run).cancels| && k < |run'[|run|].cancels|
    && Enabled(Last(run'), WriteCancel(k)) && Last(run').cancels[k].doc == id
    && Last(run').books.docs[id].status == Confirmed
  }

  /** No key is used by two movements; those of a confirmation carry none. */
  ghost predicate KeysUnique(ledger: seq<Movement>) {
    forall i, j | 0 <= i < j < |ledger| && ledger[i].key.Some? :: ledger[i].key != ledger[j].key
  }

  lemma {:induction false} PostKeepsKeys(ledger: seq<Movement>, tracked: map<nat, bool>, side: Side, lines: seq<Line>)
    requires KeysUnique(ledger) && Post(ledger, tracked, side, lines).Ok?
    ensures KeysUnique(Post(ledger, tracked, side, lines).value) && ledger <= Post(ledger, tracked, side, lines).value
  {
    if lines == [] {
    } else {
      PostKeepsKeys(ledger, tracked, side, lines[..|lines| - 1]);
    }
  }

  lemma LedgerGrows(b: Books, s: State, a: Action)
    requires b == s.books && KeysUnique(b.ledger) && Enabled(s, a)
    ensures KeysUnique(Step(s, a).books.ledger) && b.ledger <= Step(s, a).books.ledger
  {
    if a.RunAttempt? && Confirm(b, s.calls[a.c].doc).Ok? {
      var doc := b.docs[s.calls[a.c].doc];
      PostKeepsKeys(b.ledger, b.tracked, doc.side, doc.lines);
    }
  }

  /** In every run the ledger only grows, and no key records two movements. */
  lemma {:induction false} LedgerOnlyGrows(run: seq<State>, i: nat, j: nat)
    requires IsRun(run) && i <= j < |run|
    ensures KeysUnique(run[j].books.ledger) && run[i].books.ledger <= run[j].books.ledger
  {
    if j == 0 {
    } else {
      LedgerOnlyGrows(run, if i < j then i else j - 1, j - 1);
      assert Next(run[j - 1], run[j - 1 + 1]);
      var a :| Enabled(run[j - 1], a) && Step(run[j - 1], a) == run[j];
      LedgerGrows(run[j - 1].books, run[j - 1], a);
    }
  }

  /** Once a key has recorded a movement, recording under it again changes nothing, whatever came between. */
  lemma RecordedOnce(run: seq<State>, i: nat, j: nat, m: Movement)
    requires IsRun(run) && i <= j < |run| && KeyTaken(run[i].books.ledger, m.key) && WellFormed(m)
    ensures Step(run[j], Record(m)) == run[j]
  {
    LedgerOnlyGrows(run, i, j);
    var k :| 0 <= k < |run[i].books.ledger| && run[i].books.ledger[k].key == m.key;
    assert run[j].books.ledger[k].key == m.key;
    assert run[j].byHand + [] == run[j].byHand;
  }

  // ---- Whose stock moves ----

  /** A receipt or an issue has a positive quantity, an adjustment any but zero. */
  predicate MovesSomething(m: Movement) {
    m.quantity != 0 && (m.quantity < 0 ==> m.kind == Adjustment)
  }

  lemma {:induction false} PostMovesTracked(ledger: seq<Movement>, tracked: map<nat, bool>, side: Side, lines: seq<Line>)
    requires LinesOk(lines, tracked) && Post(ledger, tracked, side, lines).Ok?
    ensures var ledger' := Post(ledger, tracked, side, lines).value;
      ledger <= ledger' && forall m | |ledger| <= m < |ledger'| ::
        ledger'[m].product in tracked && tracked[ledger'[m].product] && MovesSomething(ledger'[m])
  {
    if lines != [] {
      var n := |lines| - 1;
      PostMovesTracked(ledger, tracked, side, lines[..n]);
      if IsTracked(tracked, lines[n].product) {
        AppendExactly(Post(ledger, tracked, side, lines[..n]).value, tracked, MovementOf(side, lines[n]));
      }
    }
  }

  lemma StepMovesTracked(s: State, a: Action)
    requires Enabled(s, a) && DocsOk(s.books)
    ensures s.books.ledger <= Step(s, a).books.ledger
    ensures forall m | |s.books.ledger| <= m < |Step(s, a).books.ledger| ::
      var movement := Step(s, a).books.ledger[m];
      movement.product in s.books.tracked && s.books.tracked[movement.product] && MovesSomething(movement)
  {
    if a.RunAttempt? && Confirm(s.books, s.calls[a.c].doc).Ok? {
      var doc := s.books.docs[s.calls[a.c].doc];
      PostMovesTracked(s.books.ledger, s.books.tracked, doc.side, doc.lines);
    } else if a.Record? {
      MoveByHandExactly(s.books, a.m);
    }
  }

  /**
   Every movement of the ledger moves something, on a product whose stock was tracked at the step that
   appended it.
   */
  lemma {:induction false} MovedWhileTracked(run: seq<State>, i: nat, m: nat) returns (k: nat)
    requires IsRun(run) && i < |run| && m < |run[i].books.ledger|
    ensures k < i && |run[k].books.ledger| <= m < |run[k + 1].books.ledger|
    ensures run[k + 1].books.ledger[m] == run[i].books.ledger[m]
    ensures var movement := run[i].books.ledger[m];
      && movement.product in run[k].books.tracked && run[k].books.tracked[movement.product]
      && movement.quantity != 0 && (movement.quantity < 0 ==> movement.kind == Adjustment)
  {
    hide Step, Enabled;
    if i == 0 {
      assert false;
    } else {
      assert Next(run[i - 1], run[i - 1 + 1]);
      var a :| Enabled(run[i - 1], a) && Step(run[i - 1], a) == run[i];
      RunKeeps(run, i - 1);
      StepMovesTracked(run[i - 1], a);
      if m < |run[i - 1].books.ledger| {
        k := MovedWhileTracked(run, i - 1, m);
      } else {
        k := i - 1;
      }
    }
  }

  /** A confirmation that the database keeps rolling back is given up after three attempts. */
  lemma RollBackMeans(s: State, c: nat)
    requires Enabled(s, RollBack(c))
    ensures var (call, call') := (s.calls[c], Step(s, RollBack(c)).calls[c]);
      && Step(s, RollBack(c)).books == s.books && call'.commits == call.commits
      && if call.attempt < 3 then call'.attempt == call.attempt + 1 && call'.result.None?
         else call'.result == Some(Err(ConcurrencyConflict))
  {
  }
}
