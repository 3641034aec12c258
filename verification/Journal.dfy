/**
 The double-entry journal of one tenant: entries are only ever appended, each balanced, numbered in
 sequence and deduplicated by key.
 */
module Journal {
  import opened Wrappers
  import opened Sums

  datatype Account = Account(code: string, title: string)

  datatype Line = Line(account: nat, debit: int, credit: int)

  datatype Entry = Entry(number: nat, date: int, lines: seq<Line>, key: Option<string>)

  datatype Books = Books(accounts: map<nat, Account>, entries: seq<Entry>, counter: nat)

  datatype Input = Input(date: int, lines: seq<Line>, key: Option<string>)

  datatype Error = Unbalanced | TwoSidedLine | UnknownAccount | CheckConstraint | UniqueViolation

  /** `created` is false for a replay, which answers with the entry of the first request. */
  datatype Outcome = Entered(number: nat, created: bool) | Rejected(error: Error)

  function AccountOf(line: Line): nat {
    line.account
  }

  function Debit(line: Line): int {
    line.debit
  }

  function Credit(line: Line): int {
    line.credit
  }

  predicate Balanced(lines: seq<Line>) {
    Sum(lines, Debit) == Sum(lines, Credit) && Sum(lines, Debit) > 0
  }

  predicate OneSided(line: Line) {
    (line.debit > 0) != (line.credit > 0)
  }

  /** The constraint the database puts on each line, which also forbids negative amounts. */
  predicate LineCheck(line: Line) {
    line.debit >= 0 && line.credit >= 0 && OneSided(line)
  }

  predicate KeyUsed(entries: seq<Entry>, key: Option<string>) {
    key.Some? && exists i | 0 <= i < |entries| :: entries[i].key == key
  }

  /** The position of the first entry under the key. */
  function FindKey(entries: seq<Entry>, key: Option<string>): (i: nat)
    requires KeyUsed(entries, key)
    ensures i < |entries| && entries[i].key == key
    ensures forall j | 0 <= j < i :: entries[j].key != key
  {
    if entries[0].key == key then 0
    else
      assert KeyUsed(entries[1..], key) by {
        var i :| 0 <= i < |entries| && entries[i].key == key;
        assert entries[1..][i - 1].key == key;
      }
      1 + FindKey(entries[1..], key)
  }

  predicate AllIn(lines: seq<Line>, accounts: map<nat, Account>) {
    forall i | 0 <= i < |lines| :: lines[i].account in accounts
  }

  /** A creation as one transaction; a refusal consumes no number. */
  function Create(b: Books, input: Input): (Books, Outcome) {
    if !Balanced(input.lines) then (b, Rejected(Unbalanced))
    else if exists i | 0 <= i < |input.lines| :: !OneSided(input.lines[i]) then (b, Rejected(TwoSidedLine))
    else if KeyUsed(b.entries, input.key) then (b, Entered(b.entries[FindKey(b.entries, input.key)].number, false))
    else if !AllIn(input.lines, b.accounts) then (b, Rejected(UnknownAccount))
    else if exists i | 0 <= i < |input.lines| :: !LineCheck(input.lines[i]) then (b, Rejected(CheckConstraint))
    else
      var number := b.counter + 1;
      (b.(entries := b.entries + [Entry(number, input.date, input.lines, input.key)], counter := number),
       Entered(number, true))
  }

  /** The books once others have committed entries of theirs. */
  function Amid(b: Books, others: seq<Entry>): Books {
    b.(entries := b.entries + others, counter := b.counter + |others|)
  }

  /** Whether a creation reaches its insert: no check refuses it and no entry has its key. */
  predicate ReachesInsert(b: Books, input: Input) {
    var r := Create(b, input).1;
    (r.Entered? && r.created) || r == Rejected(CheckConstraint)
  }

  /**
   A creation during which others commit entries, between its look-up and its number. When one of them
   has taken the key, the number is already counted up and the insert violates the unique constraint;
   `survives` says whether the database then lets the transaction read the winner and commit. Numbers are
   unique across tenants: `numberFree` says that no other tenant holds the one it would get.
   */
  function CreateAmid(b: Books, input: Input, others: seq<Entry>, survives: bool, numberFree: bool): (Books, Outcome) {
    if !ReachesInsert(b, input) then Create(b, input)
    else
      var b' := Amid(b, others);
      if !KeyUsed(b'.entries, input.key) then (if numberFree then Create(b', input) else (b', Rejected(UniqueViolation)))
      else if survives then (b'.(counter := b'.counter + 1), Entered(b'.entries[FindKey(b'.entries, input.key)].number, false))
      else (b', Rejected(UniqueViolation))
  }

  // ---- What every journal satisfies ----

  ghost predicate BooksOk(b: Books) {
    && b.counter == |b.entries|
    && (forall i | 0 <= i < |b.entries| :: b.entries[i].number == i + 1)
    && (forall i | 0 <= i < |b.entries| :: Balanced(b.entries[i].lines) && AllIn(b.entries[i].lines, b.accounts))
    && (forall i, k | 0 <= i < |b.entries| && 0 <= k < |b.entries[i].lines| :: LineCheck(b.entries[i].lines[k]))
    && (forall i, j | 0 <= i < j < |b.entries| && b.entries[i].key.Some? :: b.entries[i].key != b.entries[j].key)
  }

  datatype Action = Open(id: nat, account: Account) | Relabel(id: nat, title: string) | Enter(input: Input)

  predicate Enabled(b: Books, a: Action) {
    match a
    case Open(id, _) => id !in b.accounts
    case Relabel(id, _) => id in b.accounts
    case Enter(_) => true
  }

  /** Accounts keep their code for good; only the label can be changed. */
  function Step(b: Books, a: Action): Books
    requires Enabled(b, a)
  {
    match a
    case Open(id, account) => b.(accounts := b.accounts[id := account])
    case Relabel(id, title) => b.(accounts := b.accounts[id := b.accounts[id].(title := title)])
    case Enter(input) => Create(b, input).0
  }

  ghost predicate Next(b: Books, b': Books) {
    exists a :: Enabled(b, a) && Step(b, a) == b'
  }

  ghost predicate IsRun(run: seq<Books>) {
    run != [] && run[0] == Books(map[], [], 0) && forall i | 0 <= i < |run| - 1 :: Next(run[i], run[i + 1])
  }

  lemma StepKeepsBooks(b: Books, a: Action)
    requires BooksOk(b) && Enabled(b, a)
    ensures BooksOk(Step(b, a))
  {
    var b' := Step(b, a);
    if a.Enter? {
      assert forall i | 0 <= i < |b.entries| :: b'.entries[i] == b.entries[i];
    } else {
      assert b'.entries == b.entries && b'.counter == b.counter;
      forall i | 0 <= i < |b.entries|
        ensures AllIn(b.entries[i].lines, b'.accounts)
      {
        assert AllIn(b.entries[i].lines, b.accounts);
      }
    }
  }

  /**
   In every reachable journal the numbers are 1 to n without a gap, n being the counter; every entry
   is balanced on accounts that exist; and no key is used twice.
   */
  lemma {:induction false} RunKeepsBooks(run: seq<Books>, i: nat)
    requires IsRun(run) && i < |run|
    ensures BooksOk(run[i])
  {
    if i == 0 {
    } else {
      RunKeepsBooks(run, i - 1);
      assert Next(run[i - 1], run[i - 1 + 1]);
      var a :| Enabled(run[i - 1], a) && Step(run[i - 1], a) == run[i];
      StepKeepsBooks(run[i - 1], a);
    }
  }

  /** A creation consumes a number exactly when it creates an entry; replays and refusals consume nothing. */
  lemma NumberConsumedExactlyWhenCreated(b: Books, input: Input)
    requires BooksOk(b)
    ensures var (b', r) := Create(b, input);
      && (b'.counter == b.counter + 1 <==> r.Entered? && r.created)
      && (b' == b <==> !(r.Entered? && r.created))
      && (r.Entered? ==>
            exists i :: (0 <= i < |b'.entries| && b'.entries[i].number == r.number
                         && (input.key.Some? ==> b'.entries[i].key == input.key)))
  {
    var (b', r) := Create(b, input);
    if r.Entered? {
      var i := if r.created then |b.entries| else FindKey(b.entries, input.key);
      assert b'.entries[i].number == r.number;
    }
  }

  /**
   A creation appends exactly one entry, the one that was asked for, under the next number, and leaves all
   earlier entries and the accounts as they are.
   */
  lemma EntryIsInput(b: Books, input: Input)
    requires BooksOk(b) && Create(b, input).1.Entered? && Create(b, input).1.created
    ensures var (b', r) := Create(b, input);
      && b'.accounts == b.accounts && |b'.entries| == |b.entries| + 1 && b'.entries[..|b.entries|] == b.entries
      && var e := b'.entries[|b.entries|];
         e.date == input.date && e.lines == input.lines && e.key == input.key && e.number == |b.entries| + 1 == r.number
  {
  }

  /** Each refusal has its case, in this order; anything else is entered or answered with the first entry of its key. */
  lemma RefusedExactlyWhen(b: Books, input: Input)
    ensures var r := Create(b, input).1;
      if Sum(input.lines, Debit) != Sum(input.lines, Credit) || Sum(input.lines, Debit) <= 0 then r == Rejected(Unbalanced)
      else if exists i | 0 <= i < |input.lines| :: (input.lines[i].debit > 0 <==> input.lines[i].credit > 0) then r == Rejected(TwoSidedLine)
      else if KeyUsed(b.entries, input.key) then r.Entered? && !r.created
      else if exists i | 0 <= i < |input.lines| :: input.lines[i].account !in b.accounts then r == Rejected(UnknownAccount)
      else if exists i | 0 <= i < |input.lines| :: (input.lines[i].debit < 0 || input.lines[i].credit < 0) then r == Rejected(CheckConstraint)
      else r.Entered? && r.created
  {
    if k :| 0 <= k < |input.lines| && !OneSided(input.lines[k]) {
      assert input.lines[k].debit > 0 <==> input.lines[k].credit > 0;
    }
    if k :| 0 <= k < |input.lines| && (input.lines[k].debit < 0 || input.lines[k].credit < 0) {
      assert !LineCheck(input.lines[k]);
    }
  }

  lemma StepAppends(b: Books, a: Action)
    requires BooksOk(b) && Enabled(b, a)
    ensures var b' := Step(b, a);
      |b.entries| <= |b'.entries| && b'.entries[..|b.entries|] == b.entries
      && (|b'.entries| > |b.entries| ==>
            && a.Enter? && |b'.entries| == |b.entries| + 1
            && var e := b'.entries[|b.entries|]; e.date == a.input.date && e.lines == a.input.lines && e.key == a.input.key)
  {
    if a.Enter? && Create(b, a.input).1.Entered? && Create(b, a.input).1.created {
      EntryIsInput(b, a.input);
    }
  }

  /** In every run each entry is the input of the one step that created it. */
  lemma {:induction false} EntryFromInput(run: seq<Books>, i: nat, k: nat) returns (j: nat, input: Input)
    requires IsRun(run) && i < |run| && k < |run[i].entries|
    ensures j < i && |run[j].entries| == k && run[j + 1] == Step(run[j], Enter(input)) && |run[j + 1].entries| == k + 1
    ensures var e := run[i].entries[k]; e.date == input.date && e.lines == input.lines && e.key == input.key
  {
    hide Step, Enabled, BooksOk;
    if i == 0 {
      assert false;
    } else {
      RunKeepsBooks(run, i - 1);
      assert Next(run[i - 1], run[i - 1 + 1]);
      var a :| Enabled(run[i - 1], a) && Step(run[i - 1], a) == run[i];
      StepAppends(run[i - 1], a);
      if k < |run[i - 1].entries| {
        j, input := EntryFromInput(run, i - 1, k);
      } else {
        j, input := i - 1, a.input;
      }
    }
  }

  /** An account keeps its code for good, so the class of a line never changes. */
  lemma {:induction false} CodesStay(run: seq<Books>, i: nat, j: nat, id: nat)
    requires IsRun(run) && i <= j < |run| && id in run[i].accounts
    ensures id in run[j].accounts && run[j].accounts[id].code == run[i].accounts[id].code
  {
    if i < j {
      CodesStay(run, i, j - 1, id);
      assert Next(run[j - 1], run[j - 1 + 1]);
    }
  }

  /** A second creation under the same key, whatever its content, returns the number of the first. */
  lemma ReplayReturnsFirst(b: Books, input: Input, again: Input)
    requires BooksOk(b) && input.key.Some? && again.key == input.key
    requires Create(b, input).1.Entered?
    requires Balanced(again.lines) && forall i | 0 <= i < |again.lines| :: OneSided(again.lines[i])
    ensures var (b', first) := Create(b, input);
      Create(b', again) == (b', Entered(first.number, false))
  {
    var (b', first) := Create(b, input);
    var i := if first.created then |b.entries| else FindKey(b.entries, input.key);
    assert b'.entries[i].key == again.key;
    var j := FindKey(b'.entries, again.key);
    assert b'.entries[j].key == b'.entries[i].key;
    if !first.created {
      assert j == i;
    } else {
      assert forall k | 0 <= k < |b.entries| :: b'.entries[k].key != again.key;
    }
  }

  /**
   The recovery from a lost race leaves a gap in the numbers exactly when it is allowed to succeed: it
   commits the number it counted up without an entry to carry it. What keeps the numbering whole is that
   PostgreSQL aborts the transaction at the violation.
   */
  lemma RaceLeavesGapExactlyWhen(b: Books, input: Input, others: seq<Entry>, survives: bool, numberFree: bool)
    requires BooksOk(b) && BooksOk(Amid(b, others))
    ensures BooksOk(CreateAmid(b, input, others, survives, numberFree).0)
       <==> !(survives && ReachesInsert(b, input) && KeyUsed(Amid(b, others).entries, input.key))
  {
    var b' := Amid(b, others);
    if ReachesInsert(b, input) && !KeyUsed(b'.entries, input.key) {
      StepKeepsBooks(b', Enter(input));
    }
  }

  // ---- The repository ----

  class Repository {
    var accounts: map<nat, Account>
    var entries: seq<Entry>
    var counter: nat

    function Tables(): (b: Books)
      reads this
    {
      Books(accounts, entries, counter)
    }

    constructor ()
      ensures Tables() == Books(map[], [], 0)
    {
      accounts, entries, counter := map[], [], 0;
    }

    method Totals(lines: seq<Line>) returns (totalDebit: int, totalCredit: int)
      ensures totalDebit == Sum(lines, Debit) && totalCredit == Sum(lines, Credit)
    {
      totalDebit, totalCredit := 0, 0;
      for i := 0 to |lines|
        invariant totalDebit == Sum(lines[..i], Debit) && totalCredit == Sum(lines[..i], Credit)
      {
        assert lines[..i + 1][..i] == lines[..i];
        totalDebit, totalCredit := totalDebit + lines[i].debit, totalCredit + lines[i].credit;
      }
      assert lines[..|lines|] == lines;
    }

    method FindByKey(key: Option<string>) returns (found: Option<nat>)
      ensures found == if KeyUsed(entries, key) then Some(FindKey(entries, key)) else None
    {
      if key.Some? {
        for i := 0 to |entries|
          invariant forall k | 0 <= k < i :: entries[k].key != key
        {
          if entries[i].key == key {
            return Some(i);
          }
        }
      }
      return None;
    }

    /** The checks before the transaction, on the totals and then line by line. */
    method CheckLines(lines: seq<Line>) returns (r: Option<Error>)
      ensures r == if !Balanced(lines) then Some(Unbalanced)
                   else if exists i | 0 <= i < |lines| :: !OneSided(lines[i]) then Some(TwoSidedLine)
                   else None
    {
      var totalDebit, totalCredit := Totals(lines);
      if totalDebit != totalCredit || totalDebit <= 0 {
        return Some(Unbalanced);
      }
      for i := 0 to |lines|
        invariant forall k | 0 <= k < i :: OneSided(lines[k])
      {
        if (lines[i].debit > 0) == (lines[i].credit > 0) {
          assert !OneSided(lines[i]);
          return Some(TwoSidedLine);
        }
      }
      return None;
    }

    method Add(input: Input, others: seq<Entry>, survives: bool, numberFree: bool) returns (r: Outcome)
      modifies this`entries, this`counter
      ensures (Tables(), r) == CreateAmid(old(Tables()), input, others, survives, numberFree)
    {
      var refusal := CheckLines(input.lines);
      if refusal.Some? {
        return Rejected(refusal.value);
      }
      var existing := FindByKey(input.key);
      if existing.Some? {
        return Entered(entries[existing.value].number, false);
      }
      for i := 0 to |input.lines|
        invariant forall k | 0 <= k < i :: input.lines[k].account in accounts
      {
        if input.lines[i].account !in accounts {
          return Rejected(UnknownAccount);
        }
      }
      entries, counter := entries + others, counter + |others|;
      r := Insert(input, survives, numberFree);
    }

    /** The number and the entry; whatever makes the insert fail takes the number back, unless it is survived. */
    method Insert(input: Input, survives: bool, numberFree: bool) returns (r: Outcome)
      requires Balanced(input.lines) && AllIn(input.lines, accounts)
      requires forall i | 0 <= i < |input.lines| :: OneSided(input.lines[i])
      modifies this`entries, this`counter
      ensures !KeyUsed(old(entries), input.key) && numberFree ==> (Tables(), r) == Create(old(Tables()), input)
      ensures !KeyUsed(old(entries), input.key) && !numberFree ==> Tables() == old(Tables()) && r == Rejected(UniqueViolation)
      ensures KeyUsed(old(entries), input.key) ==>
        && entries == old(entries) && counter == old(counter) + (if survives then 1 else 0)
        && r == if survives then Entered(entries[FindKey(entries, input.key)].number, false) else Rejected(UniqueViolation)
    {
      var savepoint := counter;
      counter := counter + 1;
      var winner := FindByKey(input.key);
      if winner.Some? {
        if !survives {
          counter := savepoint;
          return Rejected(UniqueViolation);
        }
        return Entered(entries[winner.value].number, false);
      }
      if !numberFree {
        counter := savepoint;
        return Rejected(UniqueViolation);
      }
      for i := 0 to |input.lines|
        invariant forall k | 0 <= k < i :: LineCheck(input.lines[k])
        invariant counter == savepoint + 1 && entries == old(entries)
      {
        if !LineCheck(input.lines[i]) {
          counter := savepoint;
          return Rejected(CheckConstraint);
        }
      }
      entries := entries + [Entry(counter, input.date, input.lines, input.key)];
      return Entered(counter, true);
    }
  }
}
