/**
 Sales and purchases over the stock ledger. Confirming a document moves the stock of every tracked
 line and sets the status in one serializable transaction, which commits whole or leaves no trace.
 */
module Trade {
  import opened Wrappers
  import opened Sums
  import opened Stock
  import Retry = SerializableRetry

  datatype Side = Sale | Purchase

  datatype DocStatus = Draft | Confirmed | Cancelled

  datatype Line = Line(product: nat, quantity: nat)

  /** `posted` is history: the lines that moved stock when the document was confirmed. */
  datatype Doc = Doc(side: Side, lines: seq<Line>, status: DocStatus, posted: seq<Line>)

  function LineProduct(line: Line): nat {
    line.product
  }

  function LineQuantity(line: Line): int {
    line.quantity
  }

  /** How much of a product the lines ask for, a product on several lines counted each time. */
  function Demand(lines: seq<Line>, product: nat): int {
    SumOf(lines, LineProduct, LineQuantity, product)
  }

  predicate IsTracked(tracked: map<nat, bool>, product: nat) {
    product in tracked && tracked[product]
  }

  function TrackedLines(lines: seq<Line>, tracked: map<nat, bool>): seq<Line> {
    if lines == [] then []
    else
      TrackedLines(lines[..|lines| - 1], tracked)
      + if IsTracked(tracked, lines[|lines| - 1].product) then [lines[|lines| - 1]] else []
  }

  /** What the request schema and the foreign keys guarantee of a stored document. */
  predicate LinesOk(lines: seq<Line>, tracked: map<nat, bool>) {
    forall i | 0 <= i < |lines| :: lines[i].quantity >= 1 && lines[i].product in tracked
  }

  function MovementOf(side: Side, line: Line): Movement {
    Movement(line.product, if side == Sale then Out else In, line.quantity, None)
  }

  /** The line loop of a confirmation: each tracked line in turn, stopping at the first refusal. */
  function Post(ledger: seq<Movement>, tracked: map<nat, bool>, side: Side, lines: seq<Line>): Result<seq<Movement>> {
    if lines == [] then Ok(ledger)
    else
      var line := lines[|lines| - 1];
      var before := Post(ledger, tracked, side, lines[..|lines| - 1]);
      if before.Err? || !IsTracked(tracked, line.product) then before
      else Append(before.value, tracked, MovementOf(side, line))
  }

  // ---- What the line loop does ----

  lemma {:induction false} DemandOfTracked(lines: seq<Line>, tracked: map<nat, bool>, p: nat)
    ensures Demand(TrackedLines(lines, tracked), p) == if IsTracked(tracked, p) then Demand(lines, p) else 0
  {
    if lines == [] {
    } else {
      var init, last := lines[..|lines| - 1], lines[|lines| - 1];
      DemandOfTracked(init, tracked, p);
      SumOfAppend(TrackedLines(init, tracked), if IsTracked(tracked, last.product) then [last] else [],
                  LineProduct, LineQuantity, p);
    }
  }

  /** A loop that goes through moves each product by exactly the demand of its tracked lines. */
  lemma {:induction false} PostMoves(ledger: seq<Movement>, tracked: map<nat, bool>, side: Side, lines: seq<Line>, p: nat)
    requires Post(ledger, tracked, side, lines).Ok?
    ensures var demand := Demand(TrackedLines(lines, tracked), p);
      OnHand(Post(ledger, tracked, side, lines).value, p) == OnHand(ledger, p) + if side == Sale then -demand else demand
  {
    if lines == [] {
    } else {
      var init, last := lines[..|lines| - 1], lines[|lines| - 1];
      PostMoves(ledger, tracked, side, init, p);
      if IsTracked(tracked, last.product) {
        OnHandAfter(Post(ledger, tracked, side, init).value, MovementOf(side, last), p);
        SumOfSnoc(TrackedLines(init, tracked), last, LineProduct, LineQuantity, p);
      } else {
        assert TrackedLines(lines, tracked) == TrackedLines(init, tracked);
      }
    }
  }

  lemma {:induction false} DemandGrows(lines: seq<Line>, p: nat)
    ensures Demand(lines, p) >= 0
    ensures lines != [] ==> Demand(lines, p) >= Demand(lines[..|lines| - 1], p)
  {
    if lines == [] {
    } else {
      DemandGrows(lines[..|lines| - 1], p);
    }
  }

  ghost predicate Covered(ledger: seq<Movement>, tracked: map<nat, bool>, lines: seq<Line>) {
    forall i | 0 <= i < |lines| :: IsTracked(tracked, lines[i].product) ==>
      Demand(lines, lines[i].product) <= OnHand(ledger, lines[i].product)
  }

  /** The prefix of a covered list is covered. */
  lemma CoveredPrefix(ledger: seq<Movement>, tracked: map<nat, bool>, lines: seq<Line>)
    requires lines != [] && Covered(ledger, tracked, lines)
    ensures Covered(ledger, tracked, lines[..|lines| - 1])
  {
    var init := lines[..|lines| - 1];
    forall i | 0 <= i < |init| && IsTracked(tracked, init[i].product)
      ensures Demand(init, init[i].product) <= OnHand(ledger, init[i].product)
    {
      assert init[i] == lines[i];
      DemandGrows(lines, lines[i].product);
    }
  }

  /**
   A sale goes through exactly when, for each tracked product on it, the quantities of all its lines
   together are on hand, repeated products included.
   */
  lemma {:induction false} SaleGoesThroughExactlyWhen(ledger: seq<Movement>, tracked: map<nat, bool>, lines: seq<Line>)
    requires LinesOk(lines, tracked)
    ensures Post(ledger, tracked, Sale, lines).Ok? <==> Covered(ledger, tracked, lines)
    ensures Post(ledger, tracked, Sale, lines).Err? ==> Post(ledger, tracked, Sale, lines).error == InsufficientStock
  {
    if lines == [] {
    } else {
      var init, last := lines[..|lines| - 1], lines[|lines| - 1];
      SaleGoesThroughExactlyWhen(ledger, tracked, init);
      if Covered(ledger, tracked, lines) {
        CoveredPrefix(ledger, tracked, lines);
      }
      if Post(ledger, tracked, Sale, init).Ok? && IsTracked(tracked, last.product) {
        PostMoves(ledger, tracked, Sale, init, last.product);
        DemandOfTracked(init, tracked, last.product);
      }
      if Post(ledger, tracked, Sale, lines).Ok? {
        forall i | 0 <= i < |lines| && IsTracked(tracked, lines[i].product)
          ensures Demand(lines, lines[i].product) <= OnHand(ledger, lines[i].product)
        {
          if lines[i].product != last.product {
            assert init[i] == lines[i];
          }
        }
      }
    }
  }

  /** A purchase never falls short: from stock that is nowhere negative every line passes the guard. */
  lemma {:induction false} PurchaseGoesThrough(ledger: seq<Movement>, tracked: map<nat, bool>, lines: seq<Line>)
    requires NonNegative(ledger) && LinesOk(lines, tracked)
    ensures Post(ledger, tracked, Purchase, lines).Ok?
  {
    if lines == [] {
    } else {
      PurchaseGoesThrough(ledger, tracked, lines[..|lines| - 1]);
      PostKeepsNonNegative(ledger, tracked, Purchase, lines[..|lines| - 1]);
    }
  }

  lemma {:induction false} PostKeepsNonNegative(ledger: seq<Movement>, tracked: map<nat, bool>, side: Side, lines: seq<Line>)
    requires NonNegative(ledger) && Post(ledger, tracked, side, lines).Ok?
    ensures NonNegative(Post(ledger, tracked, side, lines).value)
  {
    if lines == [] {
    } else {
      var init, last := lines[..|lines| - 1], lines[|lines| - 1];
      PostKeepsNonNegative(ledger, tracked, side, init);
      if IsTracked(tracked, last.product) {
        AppendKeepsNonNegative(Post(ledger, tracked, side, init).value, tracked, MovementOf(side, last));
      }
    }
  }

  lemma {:induction false} PostFailsLikePrefix(ledger: seq<Movement>, tracked: map<nat, bool>, side: Side, lines: seq<Line>, n: nat)
    requires n <= |lines| && Post(ledger, tracked, side, lines[..n]).Err?
    ensures Post(ledger, tracked, side, lines) == Post(ledger, tracked, side, lines[..n])
  {
    if n == |lines| {
      assert lines[..n] == lines;
    } else {
      assert lines[..|lines| - 1][..n] == lines[..n];
      PostFailsLikePrefix(ledger, tracked, side, lines[..|lines| - 1], n);
    }
  }

  // ---- Transactions ----

  datatype Books = Books(tracked: map<nat, bool>, ledger: seq<Movement>, docs: seq<Doc>)

  function Confirm(b: Books, id: nat): Result<Books> {
    if id >= |b.docs| then Err(NotFound)
    else if b.docs[id].status != Draft then Err(NotDraft)
    else
      var doc := b.docs[id];
      var posted := Post(b.ledger, b.tracked, doc.side, doc.lines);
      if posted.Err? then Err(posted.error)
      else Ok(b.(ledger := posted.value,
                 docs := b.docs[id := doc.(status := Confirmed, posted := TrackedLines(doc.lines, b.tracked))]))
  }

  /** What a cancellation reads: only a draft goes on to the write. */
  function ReadForCancel(b: Books, id: nat): Result<nat> {
    if id >= |b.docs| then Err(NotFound)
    else if b.docs[id].status != Draft then Err(NotDraft)
    else Ok(id)
  }

  /** Its write, by id alone. */
  function WriteCancelled(b: Books, id: nat): Books
    requires id < |b.docs|
  {
    b.(docs := b.docs[id := b.docs[id].(status := Cancelled)])
  }

  predicate KeyTaken(ledger: seq<Movement>, key: Option<string>) {
    key.Some? && exists i | 0 <= i < |ledger| :: ledger[i].key == key
  }

  /** A manual movement; a key that has been used already answers with the movement of then. */
  function MoveByHand(b: Books, m: Movement): Result<Books> {
    if KeyTaken(b.ledger, m.key) then Ok(b)
    else
      var appended := Append(b.ledger, b.tracked, m);
      if appended.Err? then Err(appended.error) else Ok(b.(ledger := appended.value))
  }

  /**
   The characterisation of a confirmation: a draft sale is confirmed exactly when its tracked products
   are covered, and then each of them goes down by exactly its demand, all other products staying put.
   */
  lemma SaleConfirmed(b: Books, id: nat, p: nat)
    requires id < |b.docs| && b.docs[id].side == Sale && b.docs[id].status == Draft
    requires LinesOk(b.docs[id].lines, b.tracked)
    ensures var (doc, r) := (b.docs[id], Confirm(b, id));
      && (r.Ok? <==> Covered(b.ledger, b.tracked, doc.lines))
      && (r.Err? ==> r.error == InsufficientStock)
      && (r.Ok? ==>
            && r.value.docs[id].status == Confirmed
            && OnHand(r.value.ledger, p) ==
               OnHand(b.ledger, p) - if IsTracked(b.tracked, p) then Demand(doc.lines, p) else 0)
  {
    var doc := b.docs[id];
    SaleGoesThroughExactlyWhen(b.ledger, b.tracked, doc.lines);
    if Confirm(b, id).Ok? {
      PostMoves(b.ledger, b.tracked, Sale, doc.lines, p);
      DemandOfTracked(doc.lines, b.tracked, p);
    }
  }

  /**
   A manual movement is appended exactly when its key is unused and its product is known, tracked and left
   with nothing below zero; a used key changes nothing; each refusal has its own case.
   */
  lemma MoveByHandExactly(b: Books, m: Movement)
    ensures var change := match m.kind case In => m.quantity case Out => 0 - m.quantity case Adjustment => m.quantity;
      if m.key.Some? && exists i | 0 <= i < |b.ledger| :: b.ledger[i].key == m.key then MoveByHand(b, m) == Ok(b)
      else if m.product !in b.tracked then MoveByHand(b, m) == Err(NotFound)
      else if !b.tracked[m.product] then MoveByHand(b, m) == Err(NotTracked)
      else if OnHand(b.ledger, m.product) + change < 0 then MoveByHand(b, m) == Err(InsufficientStock)
      else MoveByHand(b, m) == Ok(Books(b.tracked, b.ledger + [m], b.docs))
  {
    AppendExactly(b.ledger, b.tracked, m);
  }

  /**
   A confirmation of either side: an unknown document and one that is no draft are refused, and so is a sale
   that is not covered; otherwise the document becomes confirmed with its lines as they were, and nothing
   but it and the ledger changes.
   */
  lemma ConfirmMeans(b: Books, id: nat)
    requires forall i | 0 <= i < |b.docs| :: LinesOk(b.docs[i].lines, b.tracked)
    ensures match Confirm(b, id)
      case Ok(b') =>
        && id < |b.docs| && b.docs[id].status == Draft
        && b'.tracked == b.tracked && |b'.docs| == |b.docs|
        && b'.docs[id].status == Confirmed && b'.docs[id].side == b.docs[id].side && b'.docs[id].lines == b.docs[id].lines
        && forall other | 0 <= other < |b.docs| && other != id :: b'.docs[other] == b.docs[other]
      case Err(error) =>
        if id >= |b.docs| then error == NotFound
        else if b.docs[id].status != Draft then error == NotDraft
        else error == InsufficientStock
  {
    if id < |b.docs| && b.docs[id].status == Draft && Post(b.ledger, b.tracked, b.docs[id].side, b.docs[id].lines).Err? {
      PostRefusal(b.ledger, b.tracked, b.docs[id].side, b.docs[id].lines);
    }
  }

  /** A line loop that goes through appends one movement for each tracked line, in order: out for a sale, in for a purchase. */
  lemma {:induction false} PostAppends(ledger: seq<Movement>, tracked: map<nat, bool>, side: Side, lines: seq<Line>)
    requires Post(ledger, tracked, side, lines).Ok?
    ensures var (ledger', chosen) := (Post(ledger, tracked, side, lines).value, TrackedLines(lines, tracked));
      && ledger <= ledger' && |ledger'| == |ledger| + |chosen|
      && forall i | 0 <= i < |chosen| ::
           ledger'[|ledger| + i] == Movement(chosen[i].product, if side.Sale? then Out else In, chosen[i].quantity, None)
  {
    if lines != [] {
      PostAppends(ledger, tracked, side, lines[..|lines| - 1]);
    }
  }

  /** The tracked lines of a document are its lines on tracked products, and only those. */
  lemma {:induction false} TrackedLinesAre(lines: seq<Line>, tracked: map<nat, bool>)
    ensures forall line :: line in TrackedLines(lines, tracked) <==> line in lines && line.product in tracked && tracked[line.product]
  {
    if lines != [] {
      var init, last := lines[..|lines| - 1], lines[|lines| - 1];
      TrackedLinesAre(init, tracked);
      assert lines == init + [last];
    }
  }

  /** A line loop over known products fails for want of stock only. */
  lemma {:induction false} PostRefusal(ledger: seq<Movement>, tracked: map<nat, bool>, side: Side, lines: seq<Line>)
    requires LinesOk(lines, tracked) && Post(ledger, tracked, side, lines).Err?
    ensures Post(ledger, tracked, side, lines).error == InsufficientStock
  {
    var n := |lines| - 1;
    if Post(ledger, tracked, side, lines[..n]).Err? {
      PostRefusal(ledger, tracked, side, lines[..n]);
    } else {
      AppendExactly(Post(ledger, tracked, side, lines[..n]).value, tracked, MovementOf(side, lines[n]));
    }
  }

  /** What a cancellation answers at its read. */
  lemma CancelAnswers(b: Books, id: nat)
    ensures ReadForCancel(b, id) ==
      if id >= |b.docs| then Err(NotFound) else if b.docs[id].status in {Confirmed, Cancelled} then Err(NotDraft) else Ok(id)
  {
  }

  /** The answer to a manual movement: its place in the ledger and the quantity on hand. */
  datatype Recorded = Recorded(index: nat, onHand: int, created: bool)

  /** The repositories over one set of tables. */
  class Repository {
    var tracked: map<nat, bool>
    var ledger: seq<Movement>
    var docs: seq<Doc>

    function Tables(): (b: Books)
      reads this
    {
      Books(tracked, ledger, docs)
    }

    constructor (b: Books)
      ensures Tables() == b
    {
      tracked, ledger, docs := b.tracked, b.ledger, b.docs;
    }

    /** Appends one movement inside the caller's transaction. */
    method ApplyMovement(m: Movement) returns (r: Result<int>)
      modifies this`ledger
      ensures match Append(old(ledger), tracked, m)
        case Ok(ledger') => ledger == ledger' && r == Ok(OnHand(ledger, m.product))
        case Err(error) => ledger == old(ledger) && r == Err(error)
    {
      if m.product !in tracked {
        return Err(NotFound);
      }
      if !tracked[m.product] {
        return Err(NotTracked);
      }
      var currentQuantity := OnHand(ledger, m.product);
      var delta := if m.kind == Out then -m.quantity else m.quantity;
      var nextQuantity := currentQuantity + delta;
      if nextQuantity < 0 {
        return Err(InsufficientStock);
      }
      OnHandAfter(ledger, m, m.product);
      ledger := ledger + [m];
      return Ok(nextQuantity);
    }

    /** A manual movement in its own transaction; a key that has been used answers with its movement. */
    method CreateMovement(m: Movement) returns (r: Result<Recorded>)
      modifies this`ledger
      ensures match MoveByHand(old(Tables()), m)
        case Ok(b) =>
          && Tables() == b && r.Ok? && r.value.created == !KeyTaken(old(ledger), m.key)
          && r.value.index < |ledger| && (m.key.Some? ==> ledger[r.value.index].key == m.key)
          && (r.value.created ==> r.value.index == |old(ledger)| && ledger[r.value.index] == m)
          && r.value.onHand == OnHand(ledger, ledger[r.value.index].product)
        case Err(error) => Tables() == old(Tables()) && r == Err(error)
    {
      if m.key.Some? {
        for i := 0 to |ledger|
          invariant forall j | 0 <= j < i :: ledger[j].key != m.key
        {
          if ledger[i].key == m.key {
            return Ok(Recorded(i, OnHand(ledger, ledger[i].product), false));
          }
        }
      }
      var applied := ApplyMovement(m);
      match applied
      case Ok(onHand) => return Ok(Recorded(|ledger| - 1, onHand, true));
      case Err(error) => return Err(error);
    }

    /** One attempt at a confirmation: the transaction commits whole or is rolled back. */
    method ConfirmOnce(id: nat) returns (r: Result<nat>)
      modifies this`ledger, this`docs
      ensures match Confirm(old(Tables()), id)
        case Ok(b) => Tables() == b && r == Ok(id)
        case Err(error) => Tables() == old(Tables()) && r == Err(error)
    {
      hide Append, OnHand;
      if id >= |docs| {
        return Err(NotFound);
      }
      var doc := docs[id];
      if doc.status != Draft {
        return Err(NotDraft);
      }
      var savepoint := ledger;
      for i := 0 to |doc.lines|
        invariant docs == old(docs)
        invariant Post(savepoint, tracked, doc.side, doc.lines[..i]) == Ok(ledger)
      {
        assert doc.lines[..i + 1][..i] == doc.lines[..i];
        if IsTracked(tracked, doc.lines[i].product) {
          var movement := Movement(doc.lines[i].product, if doc.side == Sale then Out else In, doc.lines[i].quantity, None);
          var applied := ApplyMovement(movement);
          if applied.Err? {
            PostFailsLikePrefix(savepoint, tracked, doc.side, doc.lines, i + 1);
            ledger := savepoint;
            return Err(applied.error);
          }
        }
      }
      assert doc.lines[..|doc.lines|] == doc.lines;
      docs := docs[id := doc.(status := Confirmed, posted := TrackedLines(doc.lines, tracked))];
      return Ok(id);
    }

    /** Between its read and its write the others make the tables `meanwhile`. */
    method CancelDraft(id: nat, meanwhile: Books) returns (r: Result<nat>)
      requires |meanwhile.docs| >= |docs|
      modifies this`tracked, this`ledger, this`docs
      ensures r == ReadForCancel(old(Tables()), id)
      ensures Tables() == if r.Ok? then WriteCancelled(meanwhile, id) else old(Tables())
    {
      if id >= |docs| {
        return Err(NotFound);
      }
      if docs[id].status != Draft {
        return Err(NotDraft);
      }
      tracked, ledger, docs := meanwhile.tracked, meanwhile.ledger, meanwhile.docs;
      docs := docs[id := docs[id].(status := Cancelled)];
      return Ok(id);
    }

    /**
     The retry loop around a confirmation. `conflicts[k]` says that the database rolls attempt `k`
     back; nothing else touches the tables in between. The outcome is that of one whole attempt.
     */
    method ConfirmWithRetry(id: nat, conflicts: seq<bool>) returns (r: Result<nat>)
      requires |conflicts| >= 3
      modifies this`ledger, this`docs
      ensures (forall k | 0 <= k < 3 :: conflicts[k]) ==>
        Tables() == old(Tables()) && r == Err(ConcurrencyConflict)
      ensures (exists k | 0 <= k < 3 :: !conflicts[k]) ==>
        match Confirm(old(Tables()), id)
          case Ok(b) => Tables() == b && r == Ok(id)
          case Err(error) => Tables() == old(Tables()) && r == Err(error)
    {
      for attempt := 0 to Retry.DEFAULT_MAX_ATTEMPTS
        invariant Tables() == old(Tables())
        invariant forall k | 0 <= k < attempt :: conflicts[k]
      {
        if !conflicts[attempt] {
          r := ConfirmOnce(id);
          return;
        }
      }
      return Err(ConcurrencyConflict);
    }

    /** The same retry around a manual movement. */
    method CreateMovementWithRetry(m: Movement, conflicts: seq<bool>) returns (r: Result<Recorded>)
      requires |conflicts| >= 3
      modifies this`ledger
      ensures (forall k | 0 <= k < 3 :: conflicts[k]) ==>
        Tables() == old(Tables()) && r == Err(ConcurrencyConflict)
      ensures (exists k | 0 <= k < 3 :: !conflicts[k]) ==>
        match MoveByHand(old(Tables()), m)
          case Ok(b) =>
            && Tables() == b && r.Ok? && r.value.created == !KeyTaken(old(ledger), m.key)
            && r.value.index < |ledger| && (m.key.Some? ==> ledger[r.value.index].key == m.key)
            && (r.value.created ==> r.value.index == |old(ledger)|)
            && r.value.onHand == OnHand(ledger, ledger[r.value.index].product)
          case Err(error) => Tables() == old(Tables()) && r == Err(error)
    {
      for attempt := 0 to Retry.DEFAULT_MAX_ATTEMPTS
        invariant Tables() == old(Tables())
        invariant forall k | 0 <= k < attempt :: conflicts[k]
      {
        if !conflicts[attempt] {
          r := CreateMovement(m);
          return;
        }
      }
      return Err(ConcurrencyConflict);
    }
  }
}
