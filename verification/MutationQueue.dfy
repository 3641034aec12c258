/**
 The persistent mutation queue of the mobile client: the `mutation_queue` table, one replay pass
 over it, and the class that carries both. A pass is driven by a script of answers, one per row it
 reaches; a script that runs out stands for the application being killed while it waits.
 */
module MutationQueue {

  const MAX_TRANSIENT_RETRIES := 5

  type Key = string
  type Payload = string

  datatype Status = Pending | Processing | Failed

  datatype Row = Row(key: Key, payload: Payload, status: Status, retryCount: nat)

  /** The table; `lastId` is the AUTOINCREMENT counter, which outlives deleted rows. */
  datatype Table = Table(rows: map<nat, Row>, lastId: nat)

  /** What one fetch gives back to the client. */
  datatype Answer = NoToken | NetworkFailure | Http(status: nat)

  datatype Outcome = Continue | Stop

  // ---- Rows ----

  predicate Live(t: Table, id: nat) {
    id in t.rows && t.rows[id].status != Failed
  }

  /** A row that was enqueued and has been deleted, which only a successful answer does. */
  predicate Done(t: Table, id: nat) {
    1 <= id <= t.lastId && id !in t.rows
  }

  predicate FailedRow(t: Table, id: nat) {
    id in t.rows && t.rows[id].status == Failed
  }

  /** The two tables hold the same row, or none, under this id. */
  ghost predicate SameRow(t: Table, t': Table, id: nat) {
    (id in t.rows <==> id in t'.rows) && (id in t.rows ==> t.rows[id] == t'.rows[id])
  }

  ghost predicate TableOk(t: Table) {
    && (forall id | id in t.rows :: 1 <= id <= t.lastId)
    && (forall id | Live(t, id) :: t.rows[id].retryCount < MAX_TRANSIENT_RETRIES)
  }

  function Insert(t: Table, key: Key, payload: Payload): Table {
    Table(t.rows[t.lastId + 1 := Row(key, payload, Pending, 0)], t.lastId + 1)
  }

  function SetStatus(t: Table, id: nat, status: Status): Table {
    if id in t.rows then t.(rows := t.rows[id := t.rows[id].(status := status)]) else t
  }

  function Delete(t: Table, id: nat): Table {
    t.(rows := t.rows - {id})
  }

  function AddRetry(t: Table, id: nat): Table {
    if id in t.rows then t.(rows := t.rows[id := t.rows[id].(retryCount := t.rows[id].retryCount + 1)]) else t
  }

  /** A row as it was read into memory by the pass. */
  datatype Snapshot = Snapshot(id: nat, key: Key, payload: Payload, retryCount: nat)

  function Read(t: Table, id: nat): Snapshot
    requires id in t.rows
  {
    Snapshot(id, t.rows[id].key, t.rows[id].payload, t.rows[id].retryCount)
  }

  /** The rows still to replay among the first `n` ids, in id order. */
  function LiveRows(t: Table, n: nat): seq<Snapshot> {
    if n == 0 then [] else LiveRows(t, n - 1) + if Live(t, n) then [Read(t, n)] else []
  }

  // ---- One answer ----

  predicate IsOk(status: nat) {
    200 <= status < 300
  }

  predicate IsTransient(status: nat) {
    status >= 500 || status == 429
  }

  /** What the answer to the request of row `row` does to the table, and whether the pass goes on. */
  function Settle(t: Table, row: Snapshot, answer: Answer): (Table, Outcome) {
    match answer
    case NoToken => (t, Stop)
    case NetworkFailure => (SetStatus(t, row.id, Pending), Stop)
    case Http(status) =>
      if IsOk(status) then (Delete(t, row.id), Continue)
      else if status == 401 then (SetStatus(t, row.id, Pending), Stop)
      else if IsTransient(status) then
        if row.retryCount + 1 >= MAX_TRANSIENT_RETRIES then (SetStatus(t, row.id, Failed), Continue)
        else (AddRetry(t, row.id), Stop)
      else (SetStatus(t, row.id, Failed), Continue)
  }

  // ---- A pass ----

  /** The memory of the client: which pass is running, over the rows up to which id. */
  datatype Mode =
    | Idle
    | Running(rest: seq<Snapshot>, bound: nat)
    | Waiting(row: Snapshot, rest: seq<Snapshot>, bound: nat)

  datatype Client = Client(table: Table, mode: Mode)

  function Start(t: Table): Client {
    Client(t, Running(LiveRows(t, t.lastId), t.lastId))
  }

  /** Marks the next row as processing and sends its request. */
  function Take(c: Client): Client
    requires c.mode.Running? && c.mode.rest != []
  {
    Client(SetStatus(c.table, c.mode.rest[0].id, Processing), Waiting(c.mode.rest[0], c.mode.rest[1..], c.mode.bound))
  }

  /** Takes the answer to the request in flight. */
  function Conclude(c: Client, answer: Answer): Client
    requires c.mode.Waiting?
  {
    var (table, outcome) := Settle(c.table, c.mode.row, answer);
    Client(table, if outcome.Continue? then Running(c.mode.rest, c.mode.bound) else Idle)
  }

  /** Without a token the pass stops before it marks the row. */
  function Serve(c: Client, answer: Answer): Client
    requires c.mode.Running? && c.mode.rest != []
  {
    if answer.NoToken? then c.(mode := Idle) else Conclude(Take(c), answer)
  }

  /** A killed application forgets its pass and keeps its table. */
  function Kill(c: Client): Client {
    c.(mode := Idle)
  }

  function Drain(c: Client, script: seq<Answer>): Client
    requires !c.mode.Waiting?
    decreases |script|
  {
    if c.mode.Idle? then c
    else if c.mode.rest == [] then c.(mode := Idle)
    else if script == [] then Kill(Take(c))
    else Drain(Serve(c, script[0]), script[1..])
  }

  // ---- The budget of retries ----

  /** How many more transient answers the rows up to `n` can take before none is left to replay. */
  function Budget(t: Table, n: nat): int {
    if n == 0 then 0
    else Budget(t, n - 1) + if Live(t, n) then MAX_TRANSIENT_RETRIES - t.rows[n].retryCount else 0
  }

  // ---- Facts about rows and passes ----

  /** The row is left to replay in both tables, with one snapshot, or in neither. */
  ghost predicate SameLive(t: Table, t': Table, id: nat) {
    && (Live(t, id) <==> Live(t', id))
    && (Live(t, id) ==> Read(t, id) == Read(t', id))
  }

  lemma {:induction false} LiveRowsAreLive(t: Table, n: nat)
    ensures forall i | 0 <= i < |LiveRows(t, n)| ::
      var row := LiveRows(t, n)[i]; 1 <= row.id <= n && Live(t, row.id) && row == Read(t, row.id)
    ensures forall i, j | 0 <= i < j < |LiveRows(t, n)| :: LiveRows(t, n)[i].id < LiveRows(t, n)[j].id
  {
    if n == 0 {
    } else {
      LiveRowsAreLive(t, n - 1);
    }
  }

  lemma {:induction false} LiveRowsComplete(t: Table, n: nat, id: nat)
    requires 1 <= id <= n && Live(t, id)
    ensures Read(t, id) in LiveRows(t, n)
  {
    if id == n {
    } else {
      LiveRowsComplete(t, n - 1, id);
    }
  }

  /** No row below the first listed one is left to replay. */
  lemma LiveRowsHeadIsFirst(t: Table, n: nat, id: nat)
    requires LiveRows(t, n) != [] && 1 <= id < LiveRows(t, n)[0].id
    ensures !Live(t, id)
  {
    LiveRowsAreLive(t, n);
    if Live(t, id) {
      LiveRowsComplete(t, n, id);
    }
  }

  /** Tables that agree on the liveness and the snapshots of the first `n` rows list the same rows. */
  lemma {:induction false} LiveRowsFrame(t: Table, t': Table, n: nat)
    requires forall id | 1 <= id <= n :: SameLive(t, t', id)
    ensures LiveRows(t, n) == LiveRows(t', n)
  {
    if n == 0 {
    } else {
      LiveRowsFrame(t, t', n - 1);
      assert SameLive(t, t', n);
    }
  }

  /** Settling the first listed row leaves exactly the others to replay. */
  lemma {:induction false} LiveRowsDropHead(t: Table, t': Table, n: nat)
    requires LiveRows(t, n) != []
    requires var id := LiveRows(t, n)[0].id; !Live(t', id)
    requires forall id | 1 <= id <= n && id != LiveRows(t, n)[0].id :: SameRow(t, t', id)
    ensures LiveRows(t', n) == LiveRows(t, n)[1..]
  {
    var init := LiveRows(t, n - 1);
    LiveRowsAreLive(t, n - 1);
    if init == [] {
      forall id | 1 <= id <= n - 1
        ensures SameLive(t, t', id)
      {
        assert SameRow(t, t', id);
      }
      LiveRowsFrame(t, t', n - 1);
    } else {
      assert LiveRows(t, n)[0] == init[0];
      LiveRowsDropHead(t, t', n - 1);
      assert SameRow(t, t', n);
    }
  }

  lemma {:induction false} BudgetFrame(t: Table, t': Table, n: nat)
    requires forall id | 1 <= id <= n :: SameLive(t, t', id)
    ensures Budget(t, n) == Budget(t', n)
  {
    if n == 0 {
    } else {
      BudgetFrame(t, t', n - 1);
      assert SameLive(t, t', n);
    }
  }

  function Share(t: Table, id: nat): int {
    if Live(t, id) then MAX_TRANSIENT_RETRIES - t.rows[id].retryCount else 0
  }

  /** Changing one row moves the budget by the change of that row's share. */
  lemma {:induction false} BudgetOneRow(t: Table, t': Table, n: nat, id: nat)
    requires 1 <= id <= n
    requires forall other | 1 <= other <= n && other != id :: SameRow(t, t', other)
    ensures Budget(t', n) - Budget(t, n) == Share(t', id) - Share(t, id)
  {
    if n == id {
      forall other | 1 <= other <= n - 1
        ensures SameLive(t, t', other)
      {
        assert SameRow(t, t', other);
      }
      BudgetFrame(t, t', n - 1);
    } else {
      BudgetOneRow(t, t', n - 1, id);
      assert SameRow(t, t', n);
    }
  }

  /** The budget is spent exactly when no row is left to replay. */
  lemma {:induction false} BudgetSpent(t: Table, n: nat)
    requires TableOk(t)
    ensures Budget(t, n) >= 0
    ensures Budget(t, n) == 0 <==> forall id | 1 <= id <= n :: !Live(t, id)
  {
    if n == 0 {
    } else {
      BudgetSpent(t, n - 1);
    }
  }

  /** The client's memory is consistent with its table: the pass holds exactly the rows left to replay. */
  ghost predicate ClientOk(c: Client) {
    && TableOk(c.table)
    && match c.mode
       case Idle => true
       case Running(rest, bound) => bound <= c.table.lastId && rest == LiveRows(c.table, bound)
       case Waiting(row, rest, bound) => bound <= c.table.lastId && [row] + rest == LiveRows(c.table, bound)
  }

  lemma StartOk(t: Table)
    requires TableOk(t)
    ensures ClientOk(Start(t))
  {
  }

  lemma InsertOk(c: Client, key: Key, payload: Payload)
    requires ClientOk(c)
    ensures ClientOk(c.(table := Insert(c.table, key, payload)))
    ensures Budget(Insert(c.table, key, payload), c.table.lastId + 1)
         == Budget(c.table, c.table.lastId) + MAX_TRANSIENT_RETRIES
  {
    var t' := Insert(c.table, key, payload);
    assert forall id | Live(t', id) && id != t'.lastId :: Live(c.table, id);
    if !c.mode.Idle? {
      LiveRowsFrame(c.table, t', c.mode.bound);
    }
    BudgetFrame(c.table, t', c.table.lastId);
  }

  lemma TakeOk(c: Client)
    requires ClientOk(c) && c.mode.Running? && c.mode.rest != []
    ensures ClientOk(Take(c))
    ensures Budget(Take(c).table, c.table.lastId) == Budget(c.table, c.table.lastId)
  {
    var t, t' := c.table, Take(c).table;
    LiveRowsAreLive(t, c.mode.bound);
    assert forall id :: Live(t, id) <==> Live(t', id);
    LiveRowsFrame(t, t', c.mode.bound);
    BudgetFrame(t, t', t.lastId);
    assert [c.mode.rest[0]] + c.mode.rest[1..] == c.mode.rest;
  }

  /** An answer other than a missing token, a network failure or a 401 costs the budget at least one. */
  predicate Costs(answer: Answer) {
    answer.Http? && answer.status != 401
  }

  /** Any answer keeps the client consistent, settles the row exactly when the pass goes on, and pays. */
  lemma ConcludeOk(c: Client, answer: Answer)
    requires ClientOk(c) && c.mode.Waiting?
    ensures var c' := Conclude(c, answer);
      && ClientOk(c')
      && c'.table.lastId == c.table.lastId
      && (c'.mode.Running? <==> !Live(c'.table, c.mode.row.id))
      && (Done(c'.table, c.mode.row.id) <==> answer.Http? && IsOk(answer.status))
      && (forall id | id != c.mode.row.id :: SameRow(c.table, c'.table, id))
      && Budget(c'.table, c.table.lastId) <= Budget(c.table, c.table.lastId) - if Costs(answer) then 1 else 0
  {
    var t, row, c' := c.table, c.mode.row, Conclude(c, answer);
    LiveRowsAreLive(t, c.mode.bound);
    assert LiveRows(t, c.mode.bound)[0] == row;
    assert Live(t, row.id) && row == Read(t, row.id);
    assert forall id | id != row.id :: Live(t, id) <==> Live(c'.table, id);
    if c'.mode.Running? {
      LiveRowsDropHead(t, c'.table, c.mode.bound);
    }
    BudgetOneRow(t, c'.table, t.lastId, row.id);
  }

  /**
   What each answer does, in the server's own numbers. After a network failure or a 401 the row is pending
   again, its count untouched, and the pass is over; a status from 200 to 299 removes the row; 429 and
   anything from 500 on count one more, up to the fifth, which fails the row; any other status fails it at
   once. A row that stays keeps its key and body, and the pass goes on exactly when the row is settled.
   */
  lemma AnswerSettles(c: Client, answer: Answer)
    requires ClientOk(c) && c.mode.Waiting?
    ensures var (id, c') := (c.mode.row.id, Conclude(c, answer));
      && id in c.table.rows
      && var (before, rows') := (c.table.rows[id], c'.table.rows);
         && (forall other | other != id :: SameRow(c.table, c'.table, other))
         && (id in rows' ==> rows'[id].key == before.key && rows'[id].payload == before.payload)
         && match answer
            case NoToken => rows' == c.table.rows && c'.mode == Idle
            case NetworkFailure => id in rows' && rows'[id].status == Pending && rows'[id].retryCount == before.retryCount && c'.mode == Idle
            case Http(status) =>
              if 200 <= status <= 299 then id !in rows' && c'.mode.Running?
              else if status == 401 then
                id in rows' && rows'[id].status == Pending && rows'[id].retryCount == before.retryCount && c'.mode == Idle
              else if status == 429 || status >= 500 then
                if before.retryCount < 4 then
                  id in rows' && rows'[id].status == before.status && rows'[id].retryCount == before.retryCount + 1 && c'.mode == Idle
                else id in rows' && rows'[id].status == Failed && c'.mode.Running?
              else id in rows' && rows'[id].status == Failed && c'.mode.Running?
  {
    ConcludeOk(c, answer);
    LiveRowsAreLive(c.table, c.mode.bound);
    assert LiveRows(c.table, c.mode.bound)[0] == c.mode.row;
  }

  /** A row is marked as processing when its request goes out, and nothing else is. */
  lemma TakeMarks(c: Client)
    requires ClientOk(c) && c.mode.Running? && c.mode.rest != []
    ensures var (id, rows, rows') := (c.mode.rest[0].id, c.table.rows, Take(c).table.rows);
      id in rows && rows[id].status != Failed
      && rows' == rows[id := Row(rows[id].key, rows[id].payload, Processing, rows[id].retryCount)]
      && Take(c).mode.Waiting? && Take(c).mode.row == Snapshot(id, rows[id].key, rows[id].payload, rows[id].retryCount)
  {
    LiveRowsAreLive(c.table, c.mode.bound);
  }

  /** The listing holds exactly the rows that are pending or processing, each once, by increasing id. */
  lemma ListedExactly(t: Table)
    requires TableOk(t)
    ensures var listed := LiveRows(t, t.lastId);
      && (forall i, j | 0 <= i < j < |listed| :: listed[i].id < listed[j].id)
      && (forall row :: row in listed <==>
            row.id in t.rows && t.rows[row.id].status in {Pending, Processing}
            && row == Snapshot(row.id, t.rows[row.id].key, t.rows[row.id].payload, t.rows[row.id].retryCount))
  {
    LiveRowsAreLive(t, t.lastId);
    forall row
      ensures row in LiveRows(t, t.lastId) <==>
        row.id in t.rows && t.rows[row.id].status in {Pending, Processing}
        && row == Snapshot(row.id, t.rows[row.id].key, t.rows[row.id].payload, t.rows[row.id].retryCount)
    {
      if row.id in t.rows && t.rows[row.id].status in {Pending, Processing} {
        LiveRowsComplete(t, t.lastId, row.id);
      }
    }
  }

  /** A new row is pending under the next id, with no retries. */
  lemma InsertMeans(t: Table, key: Key, payload: Payload)
    requires TableOk(t)
    ensures var t' := Insert(t, key, payload);
      && t.lastId + 1 !in t.rows && t'.lastId == t.lastId + 1
      && t'.rows == t.rows[t.lastId + 1 := Row(key, payload, Pending, 0)]
  {
    assert t.lastId + 1 in t.rows ==> t.lastId + 1 <= t.lastId;
  }

  // ---- One whole pass ----

  /** The rows a pass settles are a prefix of the rows it listed; at most one more row is touched. */
  ghost predicate SettledPrefix(t: Table, rows: seq<Snapshot>, t': Table, n: nat) {
    && n <= |rows|
    && t'.lastId == t.lastId
    && (forall i | 0 <= i < n :: !Live(t', rows[i].id))
    && (forall i | n <= i < |rows| :: Live(t', rows[i].id))
    && (forall id | (forall i | 0 <= i < |rows| && i <= n :: rows[i].id != id) :: SameRow(t, t', id))
  }

  /**
   A pass never skips a row: whatever the answers, it settles a prefix of the rows it listed, may
   touch the one row after that prefix, and leaves every other row exactly as it was.
   */
  lemma {:induction false} PassSettlesPrefix(c: Client, script: seq<Answer>)
    requires ClientOk(c) && c.mode.Running?
    ensures var c' := Drain(c, script);
      c'.mode.Idle? && TableOk(c'.table) && exists n: nat :: SettledPrefix(c.table, c.mode.rest, c'.table, n)
    decreases |script|
  {
    var t, rest, c' := c.table, c.mode.rest, Drain(c, script);
    LiveRowsAreLive(t, c.mode.bound);
    if rest == [] {
      assert SettledPrefix(t, rest, c'.table, 0);
    } else if script == [] {
      TakeOk(c);
      assert SettledPrefix(t, rest, c'.table, 0);
    } else if script[0].NoToken? {
      assert c' == Drain(c.(mode := Idle), script[1..]) == c.(mode := Idle);
      assert SettledPrefix(t, rest, c'.table, 0);
    } else {
      ServeOk(c, script[0]);
      var mid := Serve(c, script[0]);
      if mid.mode.Idle? {
        assert c' == Drain(mid, script[1..]) == mid;
      } else {
        PassSettlesPrefix(mid, script[1..]);
        var n: nat :| SettledPrefix(mid.table, rest[1..], c'.table, n);
        SettledPrefixExtends(t, rest, mid.table, c'.table, n);
      }
    }
  }

  /** Serving the next row changes no other row; the pass goes on exactly when the row is settled. */
  lemma ServeOk(c: Client, answer: Answer)
    requires ClientOk(c) && c.mode.Running? && c.mode.rest != [] && !answer.NoToken?
    ensures var c', first := Serve(c, answer), c.mode.rest[0].id;
      && ClientOk(c')
      && c'.table.lastId == c.table.lastId
      && !c'.mode.Waiting?
      && (c'.mode.Running? ==> c'.mode.rest == c.mode.rest[1..] && !Live(c'.table, first))
      && (c'.mode.Idle? ==> SettledPrefix(c.table, c.mode.rest, c'.table, 0))
      && (forall i | 1 <= i < |c.mode.rest| :: c.mode.rest[i].id != first)
      && (forall id | id != first :: SameRow(c.table, c'.table, id))
  {
    TakeOk(c);
    ConcludeOk(Take(c), answer);
    LiveRowsAreLive(c.table, c.mode.bound);
    var c', first := Serve(c, answer), c.mode.rest[0].id;
    forall id | id != first
      ensures SameRow(c.table, c'.table, id)
    {
      assert SameRow(c.table, Take(c).table, id);
      assert SameRow(Take(c).table, c'.table, id);
    }
  }

  lemma SettledPrefixExtends(t: Table, rows: seq<Snapshot>, mid: Table, t': Table, n: nat)
    requires rows != [] && !Live(mid, rows[0].id) && mid.lastId == t.lastId
    requires forall i | 1 <= i < |rows| :: rows[i].id != rows[0].id
    requires forall id | id != rows[0].id :: SameRow(t, mid, id)
    requires SettledPrefix(mid, rows[1..], t', n)
    ensures SettledPrefix(t, rows, t', n + 1)
  {
    var tail := rows[1..];
    assert forall i | 1 <= i < |rows| :: rows[i] == tail[i - 1];
    assert forall i | 0 <= i < |tail| && i <= n :: tail[i].id != rows[0].id;
    assert SameRow(mid, t', rows[0].id);
    forall id | forall i | 0 <= i < |rows| && i <= n + 1 :: rows[i].id != id
      ensures SameRow(t, t', id)
    {
      assert rows[0].id != id;
      assert SameRow(t, mid, id);
      assert forall i | 0 <= i < |tail| && i <= n :: tail[i].id == rows[i + 1].id != id;
      assert SameRow(mid, t', id);
    }
  }

  // ---- The class ----

  /** The queue module of the client: the table behind it and the flag that keeps passes apart. */
  class Queue {
    var rows: map<nat, Row>
    var lastId: nat
    var isProcessing: bool

    function Contents(): (t: Table)
      reads this
    {
      Table(rows, lastId)
    }

    ghost predicate Valid()
      reads this
    {
      TableOk(Contents())
    }

    constructor ()
      ensures Valid() && Contents() == Table(map[], 0) && !isProcessing
    {
      rows, lastId, isProcessing := map[], 0, false;
    }

    method Enqueue(key: Key, payload: Payload) returns (id: nat)
      requires Valid()
      modifies this`rows, this`lastId
      ensures Valid()
      ensures Contents() == Insert(old(Contents()), key, payload)
      ensures id == lastId && Live(Contents(), id) && id !in old(rows)
    {
      lastId := lastId + 1;
      rows := rows[lastId := Row(key, payload, Pending, 0)];
      id := lastId;
      assert forall i | Live(Contents(), i) && i != id :: Live(old(Contents()), i);
    }

    method Mark(id: nat, status: Status)
      modifies this`rows
      ensures Contents() == SetStatus(old(Contents()), id, status)
    {
      if id in rows {
        rows := rows[id := rows[id].(status := status)];
      }
    }

    method MarkDone(id: nat)
      modifies this`rows
      ensures Contents() == Delete(old(Contents()), id)
    {
      rows := rows - {id};
    }

    method IncrementRetry(id: nat)
      modifies this`rows
      ensures Contents() == AddRetry(old(Contents()), id)
    {
      if id in rows {
        rows := rows[id := rows[id].(retryCount := rows[id].retryCount + 1)];
      }
    }

    /** Pending rows and rows left in processing by a killed application, in id order. */
    method ListPending() returns (pending: seq<Snapshot>)
      ensures pending == LiveRows(Contents(), lastId)
    {
      pending := [];
      for id := 1 to lastId + 1
        invariant pending == LiveRows(Contents(), id - 1)
      {
        if id in rows && rows[id].status != Failed {
          pending := pending + [Snapshot(id, rows[id].key, rows[id].payload, rows[id].retryCount)];
        }
      }
    }

    method ProcessOne(row: Snapshot, answer: Answer) returns (outcome: Outcome)
      modifies this`rows
      ensures answer.NoToken? ==> Contents() == old(Contents()) && outcome.Stop?
      ensures !answer.NoToken? ==>
        (Contents(), outcome) == Settle(SetStatus(old(Contents()), row.id, Processing), row, answer)
    {
      if answer.NoToken? {
        return Stop;
      }
      Mark(row.id, Processing);
      if answer.NetworkFailure? {
        Mark(row.id, Pending);
        return Stop;
      }
      var status := answer.status;
      if 200 <= status < 300 {
        MarkDone(row.id);
        return Continue;
      }
      if status == 401 {
        Mark(row.id, Pending);
        return Stop;
      }
      if status >= 500 || status == 429 {
        var nextRetryCount := row.retryCount + 1;
        if nextRetryCount >= MAX_TRANSIENT_RETRIES {
          Mark(row.id, Failed);
          return Continue;
        }
        IncrementRetry(row.id);
        return Stop;
      }
      Mark(row.id, Failed);
      return Continue;
    }

    /** One replay pass; a pass asked for while another one runs does nothing. */
    method ProcessQueue(script: seq<Answer>)
      requires Valid()
      modifies this
      ensures Valid()
      ensures old(isProcessing) ==> isProcessing && Contents() == old(Contents())
      ensures !old(isProcessing) ==>
        !isProcessing && Contents() == Drain(Start(old(Contents())), script).table
    {
      if isProcessing {
        return;
      }
      isProcessing := true;
      var pending := ListPending();
      ghost var start := Start(Contents());
      StartOk(Contents());
      PassSettlesPrefix(start, script);
      var i, bound := 0, lastId;
      while i < |pending|
        invariant 0 <= i <= |pending| && i <= |script|
        invariant lastId == bound && isProcessing
        invariant Drain(Client(Contents(), Running(pending[i..], bound)), script[i..]) == Drain(start, script)
        decreases |pending| - i
      {
        assert pending[i..][0] == pending[i] && pending[i..][1..] == pending[i + 1..];
        if i == |script| {
          Mark(pending[i].id, Processing);
          isProcessing := false;
          return;
        }
        assert script[i..][0] == script[i] && script[i..][1..] == script[i + 1..];
        var outcome := ProcessOne(pending[i], script[i]);
        if outcome.Stop? {
          isProcessing := false;
          return;
        }
        i := i + 1;
      }
      isProcessing := false;
    }
  }
}
