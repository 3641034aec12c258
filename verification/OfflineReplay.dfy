/**
 The offline replay protocol end to end: the queue of one device, a network that may lose, delay
 and duplicate messages, application kills, and a server that deduplicates creations by key. The
 header is the one of draft-ietf-httpapi-idempotency-key-header.

 Every request ever sent may reach the server any number of times, at any later moment, or never;
 the same holds for responses, except that a response only counts for the attempt it answers.
 */
module OfflineReplay {
  import opened Wrappers
  import opened MutationQueue
  import K = KeyedCreate

  /** What was enqueued under an id; kept after the row itself is deleted. */
  datatype Issued = Issued(key: Key, payload: Payload)

  datatype Request = Request(id: nat, key: Key, payload: Payload)

  datatype Response = Response(attempt: nat, status: nat)

  /** An answer the device has received. */
  datatype Answered = Answered(id: nat, status: nat)

  /**
   `sent[n]` is the request of attempt `n`, and doubles as the network's store of requests.
   `handlers` are the attempts whose server transaction missed the look-up and has not ended.
   `issued`, `answered` and `answers` are history: the rows ever enqueued, the number of answers that cost
   budget, and all answers received with the rows they were for.
   */
  datatype State = State(
    client: Client,
    attempt: nat,
    issued: seq<Issued>,
    sent: seq<Request>,
    handlers: set<nat>,
    responses: set<Response>,
    docs: seq<K.Doc>,
    answered: nat,
    answers: seq<Answered>)

  const Initial := State(Client(Table(map[], 0), Idle), 0, [], [], {}, {}, [], 0, [])

  datatype Action =
    // the device
    | Enqueue(key: Key, payload: Payload)
    | BeginPass
    | Send
    | GiveUp
    | EndPass
    | LoseConnection
    | Receive(response: Response)
    | AppKilled
    // the server
    | LookUp(attempt: nat, status: nat)
    | InsertDocument(attempt: nat, status: nat)
    | Refuse(attempt: nat, status: nat)
    | OthersCreate(doc: K.Doc)

  function KeyOf(s: State, id: nat): Key
    requires 1 <= id <= |s.issued|
  {
    s.issued[id - 1].key
  }

  predicate Enabled(s: State, a: Action) {
    match a
    case Enqueue(key, _) =>
      // keys are generated injectively: never one of this device's, nor of anybody else's
      (forall i | 0 <= i < |s.issued| :: s.issued[i].key != key) && !K.HasKey(s.docs, key)
    case BeginPass => s.client.mode.Idle?
    case Send => s.client.mode.Running? && s.client.mode.rest != []
    case GiveUp => s.client.mode.Running? && s.client.mode.rest != []
    case EndPass => s.client.mode.Running? && s.client.mode.rest == []
    case LoseConnection => s.client.mode.Waiting?
    case Receive(response) => s.client.mode.Waiting? && response in s.responses && response.attempt == s.attempt
    case AppKilled => true
    case LookUp(attempt, _) => attempt < |s.sent|
    case InsertDocument(attempt, _) => attempt < |s.sent| && attempt in s.handlers
    case Refuse(attempt, status) => attempt < |s.sent| && !IsOk(status)
    case OthersCreate(doc) =>
      doc.key.Some? ==>
        !K.HasKey(s.docs, doc.key.value) && forall i | 0 <= i < |s.issued| :: s.issued[i].key != doc.key.value
  }

  function Step(s: State, a: Action): State
    requires Enabled(s, a)
  {
    match a
    case Enqueue(key, payload) =>
      s.(client := s.client.(table := Insert(s.client.table, key, payload)), issued := s.issued + [Issued(key, payload)])
    case BeginPass => s.(client := Start(s.client.table))
    case Send =>
      var row := s.client.mode.rest[0];
      s.(client := Take(s.client), attempt := |s.sent|, sent := s.sent + [Request(row.id, row.key, row.payload)])
    case GiveUp => s.(client := Serve(s.client, NoToken))
    case EndPass => s.(client := Kill(s.client))
    case LoseConnection => s.(client := Conclude(s.client, NetworkFailure))
    case Receive(response) =>
      s.(client := Conclude(s.client, Http(response.status)),
         answered := s.answered + (if Costs(Http(response.status)) then 1 else 0),
         answers := s.answers + [Answered(s.client.mode.row.id, response.status)])
    case AppKilled => s.(client := Kill(s.client))
    case LookUp(attempt, status) =>
      if K.HasKey(s.docs, s.sent[attempt].key) then s.(responses := s.responses + {Response(attempt, status)})
      else s.(handlers := s.handlers + {attempt})
    case InsertDocument(attempt, status) =>
      var request := s.sent[attempt];
      // the unique constraint refuses a second document under the key
      s.(docs := K.InsertDoc(s.docs, Some(request.key), request.payload),
         handlers := s.handlers - {attempt},
         responses := s.responses + {Response(attempt, status)})
    case Refuse(attempt, status) =>
      s.(handlers := s.handlers - {attempt}, responses := s.responses + {Response(attempt, status)})
    case OthersCreate(doc) => s.(docs := s.docs + [doc])
  }

  ghost predicate Next(s: State, s': State) {
    exists a :: Enabled(s, a) && Step(s, a) == s'
  }

  ghost predicate IsRun(run: seq<State>) {
    run != [] && run[0] == Initial && forall i | 0 <= i < |run| - 1 :: Next(run[i], run[i + 1])
  }

  // ---- The invariant ----

  ghost predicate ClientInv(s: State) {
    && ClientOk(s.client)
    && |s.issued| == s.client.table.lastId
    && (forall id | id in s.client.table.rows ::
          s.client.table.rows[id].key == s.issued[id - 1].key && s.client.table.rows[id].payload == s.issued[id - 1].payload)
    && (forall i, j | 0 <= i < j < |s.issued| :: s.issued[i].key != s.issued[j].key)
  }

  /** A row has a request out only when every row before it has left the queue's live part. */
  ghost predicate SettledBelow(s: State, id: nat) {
    forall a | 1 <= a < id :: !Live(s.client.table, a)
  }

  ghost predicate SentInv(s: State) {
    && (forall n | 0 <= n < |s.sent| ::
          && 1 <= s.sent[n].id <= |s.issued|
          && s.sent[n].key == s.issued[s.sent[n].id - 1].key
          && s.sent[n].payload == s.issued[s.sent[n].id - 1].payload
          && SettledBelow(s, s.sent[n].id))
    && (s.client.mode.Waiting? ==> s.attempt < |s.sent| && s.sent[s.attempt].id == s.client.mode.row.id)
    && (forall n | n in s.handlers :: n < |s.sent|)
    && (forall r | r in s.responses :: r.attempt < |s.sent|)
  }

  /** The document at position `p` carries the key of row `id`. */
  ghost predicate DocAt(s: State, p: nat, id: nat) {
    p < |s.docs| && 1 <= id <= |s.issued| && s.docs[p].key == Some(s.issued[id - 1].key)
  }

  ghost predicate DocsInv(s: State) {
    && K.UniqueKeys(s.docs)
    && (forall p: nat, id: nat | DocAt(s, p, id) :: s.docs[p].payload == s.issued[id - 1].payload && SettledBelow(s, id))
    && (forall r | r in s.responses && IsOk(r.status) && r.attempt < |s.sent| :: K.HasKey(s.docs, s.sent[r.attempt].key))
    && (forall id: nat | Done(s.client.table, id) && id <= |s.issued| :: K.HasKey(s.docs, s.issued[id - 1].key))
  }

  /** The document of a row that ended done precedes the documents of all later rows. */
  ghost predicate OrderInv(s: State) {
    forall a: nat, b: nat, p: nat, q: nat | a < b && Done(s.client.table, a) && DocAt(s, p, a) && DocAt(s, q, b) :: p < q
  }

  ghost predicate BudgetInv(s: State) {
    s.answered + Budget(s.client.table, s.client.table.lastId) <= MAX_TRANSIENT_RETRIES * s.client.table.lastId
  }

  ghost predicate Inv(s: State) {
    ClientInv(s) && SentInv(s) && DocsInv(s) && OrderInv(s) && BudgetInv(s)
  }

  // ---- Every step keeps the invariant ----

  /** A move of the client that only settles rows, and only ends a row done once its document exists. */
  lemma ClientMoves(s: State, s': State)
    requires Inv(s)
    requires s' == s.(client := s'.client, attempt := s'.attempt, answered := s'.answered, answers := s'.answers)
    requires ClientOk(s'.client) && s'.client.table.lastId == s.client.table.lastId
    requires forall id | id in s'.client.table.rows ::
      && id in s.client.table.rows
      && s'.client.table.rows[id].key == s.client.table.rows[id].key
      && s'.client.table.rows[id].payload == s.client.table.rows[id].payload
    requires forall id: nat | Live(s'.client.table, id) :: Live(s.client.table, id)
    requires forall id: nat | Done(s'.client.table, id) && id in s.client.table.rows ::
      Live(s.client.table, id) && K.HasKey(s.docs, s.issued[id - 1].key)
    requires s'.client.mode.Waiting? ==>
      s'.attempt < |s.sent| && s.sent[s'.attempt].id == s'.client.mode.row.id
    ensures ClientInv(s') && SentInv(s') && DocsInv(s') && OrderInv(s')
  {
    forall id: nat | SettledBelow(s, id)
      ensures SettledBelow(s', id)
    {
    }
    forall p: nat, id: nat | DocAt(s', p, id)
      ensures s'.docs[p].payload == s'.issued[id - 1].payload && SettledBelow(s', id)
    {
      assert DocAt(s, p, id);
    }
    forall id: nat | Done(s'.client.table, id)
      ensures K.HasKey(s'.docs, s'.issued[id - 1].key)
    {
      assert id in s.client.table.rows || Done(s.client.table, id);
    }
    forall a: nat, b: nat, p: nat, q: nat | a < b && Done(s'.client.table, a) && DocAt(s', p, a) && DocAt(s', q, b)
      ensures p < q
    {
      assert DocAt(s, p, a) && DocAt(s, q, b);
      assert SettledBelow(s, b);
      assert Done(s.client.table, a);
    }
  }

  lemma EnqueueKeepsClient(s: State, key: Key, payload: Payload)
    requires Inv(s) && Enabled(s, Enqueue(key, payload))
    ensures ClientInv(Step(s, Enqueue(key, payload))) && BudgetInv(Step(s, Enqueue(key, payload)))
  {
    InsertOk(s.client, key, payload);
  }

  lemma EnqueueKeeps(s: State, key: Key, payload: Payload)
    requires Inv(s) && Enabled(s, Enqueue(key, payload))
    ensures Inv(Step(s, Enqueue(key, payload)))
  {
    hide ClientOk, Budget;
    EnqueueKeepsClient(s, key, payload);
    var s' := Step(s, Enqueue(key, payload));
    var t, t' := s.client.table, s'.client.table;
    forall id: nat | SettledBelow(s, id) && id <= |s.issued|
      ensures SettledBelow(s', id)
    {
      assert forall a | 1 <= a < id :: Live(t', a) ==> Live(t, a);
    }
    assert forall p | 0 <= p < |s.docs| :: s.docs[p].key != Some(key);
    assert forall p: nat, id: nat | DocAt(s', p, id) :: DocAt(s, p, id);
    assert forall id: nat | Done(t', id) :: Done(t, id);
    assert forall a: nat, b: nat, p: nat, q: nat | DocAt(s', p, a) && DocAt(s', q, b) :: DocAt(s, p, a) && DocAt(s, q, b);
  }

  /** One more request in the network, of a row with nothing left to replay before it. */
  lemma RequestAddedKeeps(s: State, row: Snapshot)
    requires Inv(s) && 1 <= row.id <= |s.issued| && SettledBelow(s, row.id)
    requires row.key == s.issued[row.id - 1].key && row.payload == s.issued[row.id - 1].payload
    ensures Inv(s.(sent := s.sent + [Request(row.id, row.key, row.payload)]))
  {
    var s' := s.(sent := s.sent + [Request(row.id, row.key, row.payload)]);
    assert forall n | 0 <= n < |s.sent| :: s'.sent[n] == s.sent[n];
    assert forall id: nat :: SettledBelow(s', id) <==> SettledBelow(s, id);
    assert forall p: nat, id: nat :: DocAt(s', p, id) <==> DocAt(s, p, id);
    assert BudgetInv(s');
  }

  lemma SendKeeps(s: State)
    requires Inv(s) && Enabled(s, Send)
    ensures Inv(Step(s, Send))
  {
    var s', row := Step(s, Send), s.client.mode.rest[0];
    LiveRowsAreLive(s.client.table, s.client.mode.bound);
    forall a | 1 <= a < row.id
      ensures !Live(s.client.table, a)
    {
      LiveRowsHeadIsFirst(s.client.table, s.client.mode.bound, a);
    }
    RequestAddedKeeps(s, row);
    TakeOk(s.client);
    ClientMoves(s.(sent := s'.sent), s');
  }

  lemma ConcludeKeeps(s: State, s': State, answer: Answer)
    requires Inv(s) && s.client.mode.Waiting?
    requires s' == s.(client := Conclude(s.client, answer), answered := s.answered + (if Costs(answer) then 1 else 0), answers := s'.answers)
    requires answer.Http? && IsOk(answer.status) ==> K.HasKey(s.docs, s.sent[s.attempt].key)
    ensures Inv(s')
  {
    ConcludeOk(s.client, answer);
    var t, t', row := s.client.table, s'.client.table, s.client.mode.row;
    LiveRowsAreLive(t, s.client.mode.bound);
    assert LiveRows(t, s.client.mode.bound)[0] == row;
    forall id | id in t'.rows
      ensures id in t.rows && t'.rows[id].key == t.rows[id].key && t'.rows[id].payload == t.rows[id].payload
    {
      if id != row.id {
        assert SameRow(t, t', id);
      }
    }
    forall id: nat | Live(t', id)
      ensures Live(t, id)
    {
      if id != row.id {
        assert SameRow(t, t', id);
      }
    }
    forall id: nat | Done(t', id) && id in t.rows
      ensures Live(t, id) && K.HasKey(s.docs, s.issued[id - 1].key)
    {
      assert id == row.id || SameRow(t, t', id);
    }
    ClientMoves(s, s');
  }

  /** The remaining steps of the device change its memory only. */
  lemma MemoryKeeps(s: State, a: Action)
    requires Inv(s) && Enabled(s, a) && (a.BeginPass? || a.GiveUp? || a.EndPass? || a.AppKilled?)
    ensures Inv(Step(s, a))
  {
    if a.BeginPass? {
      StartOk(s.client.table);
    }
    ClientMoves(s, Step(s, a));
  }

  /** New documents and responses on the server: at most one document, of a row already sent or of others. */
  lemma ServerMoves(s: State, s': State)
    requires Inv(s)
    requires s' == s.(docs := s'.docs, handlers := s'.handlers, responses := s'.responses)
    requires forall n | n in s'.handlers :: n < |s.sent|
    requires s'.docs == s.docs || (|s'.docs| == |s.docs| + 1 && s.docs <= s'.docs && K.UniqueKeys(s'.docs))
    requires forall id: nat | DocAt(s', |s.docs|, id) ::
      && s'.docs[|s.docs|].payload == s.issued[id - 1].payload
      && SettledBelow(s, id)
    requires forall r | r in s'.responses && r !in s.responses ::
      r.attempt < |s.sent| && (IsOk(r.status) ==> K.HasKey(s'.docs, s.sent[r.attempt].key))
    requires s.responses <= s'.responses
    ensures Inv(s')
  {
    assert s.docs <= s'.docs;
    forall key | K.HasKey(s.docs, key)
      ensures K.HasKey(s'.docs, key)
    {
      var i :| 0 <= i < |s.docs| && s.docs[i].key == Some(key);
      assert s'.docs[i].key == Some(key);
    }
    assert forall id: nat :: SettledBelow(s, id) <==> SettledBelow(s', id);
    assert forall p: nat, id: nat | p < |s.docs| :: DocAt(s, p, id) <==> DocAt(s', p, id);
    forall a: nat, b: nat, p: nat, q: nat | a < b && Done(s'.client.table, a) && DocAt(s', p, a) && DocAt(s', q, b)
      ensures p < q
    {
      // the document of a finished row is there already, so it is not the new one
      assert K.HasKey(s.docs, s.issued[a - 1].key);
      var i :| 0 <= i < |s.docs| && s.docs[i].key == Some(s.issued[a - 1].key);
      assert s'.docs[i].key == s'.docs[p].key;
      assert p == i;
      assert DocAt(s, p, a);
      if q < |s.docs| {
        assert DocAt(s, q, b);
      }
    }
  }

  lemma ServerKeeps(s: State, a: Action)
    requires Inv(s) && Enabled(s, a) && (a.LookUp? || a.InsertDocument? || a.Refuse? || a.OthersCreate?)
    ensures Inv(Step(s, a))
  {
    var s' := Step(s, a);
    if a.InsertDocument? {
      var request := s.sent[a.attempt];
      assert SettledBelow(s, request.id);
      if !K.HasKey(s.docs, request.key) {
        K.UniqueAfterInsert(s.docs, K.Doc(Some(request.key), request.payload));
        assert s'.docs[|s.docs|].key == Some(request.key);
        forall id: nat | DocAt(s', |s.docs|, id)
          ensures id == request.id
        {
        }
      }
    } else if a.OthersCreate? {
      K.UniqueAfterInsert(s.docs, a.doc);
      assert forall id: nat :: !DocAt(s', |s.docs|, id);
    }
    ServerMoves(s, s');
  }

  lemma StepKeeps(s: State, a: Action)
    requires Inv(s) && Enabled(s, a)
    ensures Inv(Step(s, a))
  {
    match a
    case Enqueue(key, payload) => EnqueueKeeps(s, key, payload);
    case Send => SendKeeps(s);
    case LoseConnection => ConcludeKeeps(s, Step(s, a), NetworkFailure);
    case Receive(response) => ConcludeKeeps(s, Step(s, a), Http(response.status));
    case BeginPass => MemoryKeeps(s, a);
    case GiveUp => MemoryKeeps(s, a);
    case EndPass => MemoryKeeps(s, a);
    case AppKilled => MemoryKeeps(s, a);
    case LookUp(_, _) => ServerKeeps(s, a);
    case InsertDocument(_, _) => ServerKeeps(s, a);
    case Refuse(_, _) => ServerKeeps(s, a);
    case OthersCreate(_) => ServerKeeps(s, a);
  }

  lemma {:induction false} RunKeeps(run: seq<State>, i: nat)
    requires IsRun(run) && i < |run|
    ensures Inv(run[i])
  {
    if i == 0 {
    } else {
      RunKeeps(run, i - 1);
      assert Next(run[i - 1], run[i - 1 + 1]);
      var a :| Enabled(run[i - 1], a) && Step(run[i - 1], a) == run[i];
      StepKeeps(run[i - 1], a);
    }
  }

  // ---- What every run guarantees ----

  /**
   Exactly once: in every reachable state a row has at most one document, with the content that was
   enqueued, and a row that ended done has exactly one.
   */
  lemma ExactlyOnce(run: seq<State>, i: nat, id: nat)
    requires IsRun(run) && i < |run| && 1 <= id <= |run[i].issued|
    ensures var s := run[i];
      && K.Copies(s.docs, KeyOf(s, id)) <= 1
      && (Done(s.client.table, id) ==> K.Copies(s.docs, KeyOf(s, id)) == 1)
      && forall p: nat | DocAt(s, p, id) :: s.docs[p].payload == s.issued[id - 1].payload
  {
    RunKeeps(run, i);
    K.AtMostOneCopy(run[i].docs, KeyOf(run[i], id));
  }

  /** A request of row `b` leaves the device only when every earlier row is done or failed. */
  lemma SendsInOrder(run: seq<State>, i: nat)
    requires IsRun(run) && i < |run| && Enabled(run[i], Send)
    ensures var s := run[i];
      forall a: nat | 1 <= a < s.client.mode.rest[0].id ::
        Done(s.client.table, a) || FailedRow(s.client.table, a)
  {
    RunKeeps(run, i);
    var s := run[i];
    var t := s.client.table;
    forall a: nat | 1 <= a < s.client.mode.rest[0].id
      ensures Done(t, a) || FailedRow(t, a)
    {
      LiveRowsAreLive(t, s.client.mode.bound);
      LiveRowsHeadIsFirst(t, s.client.mode.bound, a);
    }
  }

  /**
   Effects in order: if an earlier row ended done, its document comes before any document of a later
   row, whatever requests are still in flight and however often the application was restarted.
   */
  lemma EffectsInOrder(run: seq<State>, i: nat, a: nat, b: nat, p: nat, q: nat)
    requires IsRun(run) && i < |run| && a < b
    requires Done(run[i].client.table, a) && DocAt(run[i], p, a) && DocAt(run[i], q, b)
    ensures p < q
  {
    RunKeeps(run, i);
  }

  /** Documents are only ever appended, so the order of positions is the order of effects in time. */
  lemma {:induction false} DocumentsOnlyGrow(run: seq<State>, i: nat, j: nat)
    requires IsRun(run) && i <= j < |run|
    ensures run[i].docs <= run[j].docs
  {
    if i == j {
    } else {
      DocumentsOnlyGrow(run, i, j - 1);
      assert Next(run[j - 1], run[j - 1 + 1]);
    }
  }

  /**
   Conservation and termination: every enqueued row is left to replay, failed or done, and never two
   of them; rows left to replay have had fewer than five transient answers; and `n` rows take at most
   `5 * n` answers other than 401, after which none is left.
   */
  lemma RowsDrain(run: seq<State>, i: nat)
    requires IsRun(run) && i < |run|
    ensures var s := run[i];
      && s.answered <= 5 * |s.issued|
      && (s.answered == 5 * |s.issued| ==> forall id: nat :: !Live(s.client.table, id))
      && forall id: nat | 1 <= id <= |s.issued| ::
           && (Live(s.client.table, id) || FailedRow(s.client.table, id) || Done(s.client.table, id))
           && !(Live(s.client.table, id) && FailedRow(s.client.table, id))
           && !(Done(s.client.table, id) && id in s.client.table.rows)
           && (Live(s.client.table, id) ==> s.client.table.rows[id].retryCount < 5)
  {
    RunKeeps(run, i);
    BudgetSpent(run[i].client.table, run[i].client.table.lastId);
  }

  /** Each answer other than a 401 strictly lowers the budget; nothing but an enqueue raises it. */
  lemma BudgetOnlyFalls(run: seq<State>, i: nat, a: Action)
    requires IsRun(run) && i < |run| && Enabled(run[i], a) && !a.Enqueue?
    ensures var (before, after) := (run[i].client.table, Step(run[i], a).client.table);
      Budget(after, after.lastId) <= Budget(before, before.lastId) - if a.Receive? && a.response.status != 401 then 1 else 0
  {
    RunKeeps(run, i);
    var s := run[i];
    match a
    case Send => TakeOk(s.client);
    case LoseConnection => ConcludeOk(s.client, NetworkFailure);
    case Receive(response) => ConcludeOk(s.client, Http(response.status));
    case _ =>
  }

  // ---- What the answers make of a row ----

  /** Where a row stands: still to be replayed, after so many transient answers, failed, or done. */
  datatype Fate = StillOpen(transients: nat) | GivenUp | Accepted

  /** The answers to a row, read in the order they came. */
  function FateOf(answers: seq<Answered>, id: nat): Fate {
    if answers == [] then StillOpen(0)
    else
      var last, fate := answers[|answers| - 1], FateOf(answers[..|answers| - 1], id);
      if last.id != id || !fate.StillOpen? then fate
      else if 200 <= last.status <= 299 then Accepted
      else if last.status == 401 then fate
      else if last.status == 429 || last.status >= 500 then
        if fate.transients == 4 then GivenUp else StillOpen(fate.transients + 1)
      else GivenUp
  }

  /** The row in the table is where its answers have put it. */
  ghost predicate FollowsAnswers(s: State, id: nat) {
    match FateOf(s.answers, id)
    case StillOpen(n) =>
      1 <= id <= |s.issued| ==> Live(s.client.table, id) && s.client.table.rows[id].retryCount == n
    case GivenUp => FailedRow(s.client.table, id)
    case Accepted => Done(s.client.table, id)
  }

  ghost predicate AnswersKnown(s: State) {
    forall k | 0 <= k < |s.answers| :: 1 <= s.answers[k].id <= |s.issued|
  }

  lemma {:induction false} NoAnswers(answers: seq<Answered>, id: nat)
    requires forall k | 0 <= k < |answers| :: answers[k].id != id
    ensures FateOf(answers, id) == StillOpen(0)
  {
    if answers != [] {
      NoAnswers(answers[..|answers| - 1], id);
    }
  }

  ghost predicate SettledHead(c: Client)
    requires c.mode.Waiting?
  {
    c.mode.row.id in c.table.rows && c.table.rows[c.mode.row.id].status != Failed
    && c.mode.row.retryCount == c.table.rows[c.mode.row.id].retryCount
  }

  lemma HeadIsLive(c: Client)
    requires ClientOk(c) && c.mode.Waiting?
    ensures SettledHead(c) && 1 <= c.mode.row.id <= c.table.lastId
  {
    LiveRowsAreLive(c.table, c.mode.bound);
    assert LiveRows(c.table, c.mode.bound)[0] == c.mode.row;
  }

  /** The row is where it was, with the count it had if it is still to be replayed. */
  ghost predicate Stays(t: Table, t': Table, id: nat) {
    && (Live(t, id) ==> Live(t', id) && t'.rows[id].retryCount == t.rows[id].retryCount)
    && (FailedRow(t, id) ==> FailedRow(t', id)) && (Done(t, id) ==> Done(t', id))
  }

  lemma SendLeavesRows(s: State, id: nat)
    requires Inv(s) && Enabled(s, Send)
    ensures Stays(s.client.table, Step(s, Send).client.table, id)
  {
    TakeMarks(s.client);
  }

  lemma LossLeavesRows(s: State, id: nat)
    requires Inv(s) && Enabled(s, LoseConnection)
    ensures Stays(s.client.table, Step(s, LoseConnection).client.table, id)
  {
    HeadIsLive(s.client);
    AnswerSettles(s.client, NetworkFailure);
    ConcludeOk(s.client, NetworkFailure);
    assert id == s.client.mode.row.id || SameRow(s.client.table, Step(s, LoseConnection).client.table, id);
  }

  /** A step that takes no answer leaves every row's place and count as they are. */
  lemma OthersLeaveRows(s: State, a: Action, id: nat)
    requires Inv(s) && Enabled(s, a) && !a.Receive? && (a.Enqueue? ==> id != |s.issued| + 1)
    ensures Step(s, a).answers == s.answers && Stays(s.client.table, Step(s, a).client.table, id)
  {
    match a
    case Send => SendLeavesRows(s, id);
    case LoseConnection => LossLeavesRows(s, id);
    case _ =>
  }

  lemma ReceiveFollows(s: State, response: Response, id: nat)
    requires Inv(s) && Enabled(s, Receive(response)) && FollowsAnswers(s, id)
    ensures FollowsAnswers(Step(s, Receive(response)), id)
  {
    var s' := Step(s, Receive(response));
    HeadIsLive(s.client);
    AnswerSettles(s.client, Http(response.status));
    assert s'.answers[..|s.answers|] == s.answers;
    if id != s.client.mode.row.id {
      assert SameRow(s.client.table, s'.client.table, id);
    }
  }

  lemma StepFollows(s: State, a: Action, id: nat)
    requires Inv(s) && Enabled(s, a) && AnswersKnown(s) && FollowsAnswers(s, id)
    ensures FollowsAnswers(Step(s, a), id)
  {
    if a.Receive? {
      ReceiveFollows(s, a.response, id);
    } else if a.Enqueue? && id == |s.issued| + 1 {
      NoAnswers(s.answers, id);
    } else {
      OthersLeaveRows(s, a, id);
    }
  }

  /**
   In every run the place of every row, and the count of one still to be replayed, are what its answers
   make of it, read in order: accepted at a status from 200 to 299; given up at the fifth 429 or status
   from 500 on, or at the first status that is none of these nor a 401; and otherwise still open.
   */
  lemma {:induction false} RowsFollowAnswers(run: seq<State>, i: nat, id: nat)
    requires IsRun(run) && i < |run|
    ensures AnswersKnown(run[i]) && FollowsAnswers(run[i], id)
  {
    hide Inv, Step, Enabled, FollowsAnswers;
    if i == 0 {
      InitiallyOpen(id);
    } else {
      RunKeeps(run, i - 1);
      RowsFollowAnswers(run, i - 1, id);
      assert Next(run[i - 1], run[i - 1 + 1]);
      var a :| Enabled(run[i - 1], a) && Step(run[i - 1], a) == run[i];
      StepFollows(run[i - 1], a, id);
      AnswersStayKnown(run[i - 1], a);
    }
  }

  lemma InitiallyOpen(id: nat)
    ensures FollowsAnswers(Initial, id)
  {
  }

  lemma AnswersStayKnown(s: State, a: Action)
    requires Inv(s) && Enabled(s, a) && AnswersKnown(s)
    ensures AnswersKnown(Step(s, a))
  {
    if a.Receive? {
      HeadIsLive(s.client);
    }
  }

  /**
   A row turns failed at a step exactly when that step receives an answer to it that is neither from 200 to
   299 nor a 401, and that for 429 and from 500 on comes after four counted ones.
   */
  lemma TurnsFailedExactlyWhen(run: seq<State>, i: nat, a: Action, id: nat)
    requires IsRun(run) && i < |run| && Enabled(run[i], a) && !FailedRow(run[i].client.table, id)
    ensures FailedRow(Step(run[i], a).client.table, id) <==>
      a.Receive? && id == run[i].client.mode.row.id && id in run[i].client.table.rows
      && var status := a.response.status;
         !(200 <= status <= 299) && status != 401
         && (status == 429 || status >= 500 ==> run[i].client.table.rows[id].retryCount == 4)
  {
    RunKeeps(run, i);
    var s := run[i];
    if a.Receive? {
      HeadIsLive(s.client);
      AnswerSettles(s.client, Http(a.response.status));
      assert id == s.client.mode.row.id || SameRow(s.client.table, Step(s, a).client.table, id);
    } else if Live(s.client.table, id) || Done(s.client.table, id) {
      if !(a.Enqueue? && id == |s.issued| + 1) {
        OthersLeaveRows(s, a, id);
      }
    }
  }

  // ---- The server's steps are those of a creation ----

  /** The status a creation answers with; a replay is answered like the creation it repeats. */
  function AnswerOf(r: K.CreateResult, refusal: nat): nat {
    match r
    case Created(_) => 201
    case Replayed(_) => 201
    case Refused => refusal
    case DatabaseError => 500
  }

  /**
   Serving one request with KeyedCreate.CreateDoc is taking the server's steps: a look-up that hits; or
   one that misses, then a refusal; or one that misses, then other documents, then the insert. `mid` is the
   state in which the others leave the server before that last step.
   */
  lemma CreateTakesServerSteps(s: State, n: nat, mid: State, acceptable: bool, survives: bool, refusal: nat)
    requires n < |s.sent| && !IsOk(refusal)
    requires s.docs <= mid.docs && mid.sent == s.sent && n in mid.handlers
    ensures var request := s.sent[n];
      var (docs', r) := K.CreateDoc(s.docs, Some(request.key), request.payload, acceptable, mid.docs[|s.docs|..], survives);
      var status := AnswerOf(r, refusal);
      if K.HasKey(s.docs, request.key) then
        && Step(s, LookUp(n, status)).docs == docs' && Response(n, status) in Step(s, LookUp(n, status)).responses
      else
        && n in Step(s, LookUp(n, status)).handlers && Step(s, LookUp(n, status)).docs == s.docs
        && if !acceptable then
             && Enabled(mid, Refuse(n, status)) && Response(n, status) in Step(mid, Refuse(n, status)).responses
             && Step(mid, Refuse(n, status)).docs == mid.docs && docs' == s.docs
           else
             && Enabled(mid, InsertDocument(n, status)) && Response(n, status) in Step(mid, InsertDocument(n, status)).responses
             && Step(mid, InsertDocument(n, status)).docs == docs'
  {
    assert s.docs + mid.docs[|s.docs|..] == mid.docs;
  }

  // ---- The limit of the guarantee ----

  function Last(run: seq<State>): State
    requires run != []
  {
    run[|run| - 1]
  }

  lemma Extend(run: seq<State>, a: Action) returns (run': seq<State>)
    requires IsRun(run) && Enabled(Last(run), a)
    ensures run' == run + [Step(Last(run), a)] && IsRun(run') && Last(run') == Step(Last(run), a)
  {
    run' := run + [Step(Last(run), a)];
    forall i | 0 <= i < |run'| - 1
      ensures Next(run'[i], run'[i + 1])
    {
      if i < |run| - 1 {
        assert Next(run[i], run[i + 1]);
      }
    }
  }

  /** The row has been sent at least once. */
  ghost predicate WasSent(s: State, id: nat) {
    exists n: nat :: n < |s.sent| && s.sent[n].id == id
  }

  /** A row fails only in answer to a request, and requests are never unsent. */
  lemma StepFails(s: State, a: Action, id: nat)
    requires Inv(s) && Enabled(s, a) && FailedRow(Step(s, a).client.table, id)
    requires FailedRow(s.client.table, id) ==> WasSent(s, id)
    ensures WasSent(Step(s, a), id)
  {
    var s' := Step(s, a);
    assert forall n: nat | n < |s.sent| :: s'.sent[n] == s.sent[n];
    if !FailedRow(s.client.table, id) {
      if a.Receive? {
        ConcludeOk(s.client, Http(a.response.status));
        assert id == s.client.mode.row.id || SameRow(s.client.table, s'.client.table, id);
        assert s.sent[s.attempt].id == s.client.mode.row.id;
      }
    } else {
      var n: nat :| n < |s.sent| && s.sent[n].id == id;
      assert s'.sent[n].id == id;
    }
  }

  /** In every reachable state a failed row has a request in the network. */
  lemma {:induction false} FailedRowWasSent(run: seq<State>, i: nat, id: nat)
    requires IsRun(run) && i < |run| && FailedRow(run[i].client.table, id)
    ensures WasSent(run[i], id)
  {
    hide Inv, Step, Enabled, WasSent;
    if i == 0 {
      assert false;
    } else {
      RunKeeps(run, i - 1);
      assert Next(run[i - 1], run[i - 1 + 1]);
      var a :| Enabled(run[i - 1], a) && Step(run[i - 1], a) == run[i];
      if FailedRow(run[i - 1].client.table, id) {
        FailedRowWasSent(run, i - 1, id);
      }
      StepFails(run[i - 1], a, id);
    }
  }

  /**
   That a row failed never means that nothing happened, nor that nothing will: whatever the run, and
   without a further step of the device, it extends to one in which the row has its document.
   */
  lemma FailedRowMayGetDocument(run: seq<State>, id: nat) returns (run': seq<State>)
    requires IsRun(run) && 1 <= id <= |Last(run).issued| && FailedRow(Last(run).client.table, id)
    ensures IsRun(run') && run <= run' && Last(run').client == Last(run).client && Last(run').issued == Last(run).issued
    ensures K.HasKey(Last(run').docs, KeyOf(Last(run), id))
  {
    run' := run;
    if !K.HasKey(Last(run).docs, KeyOf(Last(run), id)) {
      FailedRowWasSent(run, |run| - 1, id);
      RunKeeps(run, |run| - 1);
      var n: nat :| n < |Last(run).sent| && Last(run).sent[n].id == id;
      run' := ServeRequest(run, n);
    }
  }

  /** The server serves a request whose key is unused: the look-up misses and the document is inserted. */
  lemma ServeRequest(run: seq<State>, n: nat) returns (run': seq<State>)
    requires IsRun(run) && n < |Last(run).sent| && !K.HasKey(Last(run).docs, Last(run).sent[n].key)
    ensures IsRun(run') && run <= run' && Last(run').client == Last(run).client && Last(run').issued == Last(run).issued
    ensures K.HasKey(Last(run').docs, Last(run).sent[n].key)
  {
    run' := Extend(run, LookUp(n, 201));
    run' := Extend(run', InsertDocument(n, 201));
    assert Last(run').docs[|Last(run).docs|].key == Some(Last(run).sent[n].key);
  }

  /** A pass over a table with one row, sent and then left with the given answer. */
  lemma SendOnlyRow(run: seq<State>, row: Row) returns (run': seq<State>)
    requires IsRun(run) && Last(run).client == Client(Table(map[1 := row], 1), Idle) && row.status.Pending?
    ensures IsRun(run')
    ensures Last(run') == Last(run).(
      client := Client(Table(map[1 := row.(status := Processing)], 1), Waiting(Snapshot(1, row.key, row.payload, row.retryCount), [], 1)),
      attempt := |Last(run).sent|,
      sent := Last(run).sent + [Request(1, row.key, row.payload)])
  {
    var t := Table(map[1 := row], 1);
    assert LiveRows(t, 0) == [];
    assert LiveRows(t, 1) == [Read(t, 1)];
    run' := Extend(run, BeginPass);
    assert t.rows[1 := row.(status := Processing)] == map[1 := row.(status := Processing)];
    assert [Read(t, 1)][1..] == [];
    run' := Extend(run', Send);
  }

  lemma CommitThenLoseResponse() returns (run: seq<State>)
    ensures IsRun(run) && |Last(run).issued| == 1 && KeyOf(Last(run), 1) == "key" && K.HasKey(Last(run).docs, "key")
    ensures Last(run).client == Client(Table(map[1 := Row("key", "body", Pending, 0)], 1), Idle)
  {
    run := Extend([Initial], Enqueue("key", "body"));
    run := SendOnlyRow(run, Row("key", "body", Pending, 0));
    run := Extend(run, LookUp(0, 201));
    run := Extend(run, InsertDocument(0, 201));
    assert Last(run).docs[0].key == Some("key");
    run := Extend(run, LoseConnection);
  }

  /**
   One such row that has its document already when it fails: the response to a committed creation is lost,
   and the replay is refused (here because the permission was withdrawn in between).
   */
  lemma FailedRowMayHaveDocument() returns (run: seq<State>)
    ensures IsRun(run) && |Last(run).issued| == 1
    ensures FailedRow(Last(run).client.table, 1) && K.HasKey(Last(run).docs, KeyOf(Last(run), 1))
  {
    run := CommitThenLoseResponse();
    run := SendOnlyRow(run, Row("key", "body", Pending, 0));
    var attempt := Last(run).attempt;
    run := Extend(run, Refuse(attempt, 403));
    run := Extend(run, Receive(Response(attempt, 403)));
  }
}
