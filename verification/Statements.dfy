/**
 What is read off the journal: the trial balance, which groups lines per account, and the income
 statement, which nets classes 6 (expenses) and 7 (revenue) of the SYSCOHADA chart over a period.
 */
module Statements {
  import opened Sums
  import opened Journal

  function AllLines(entries: seq<Entry>): seq<Line> {
    if entries == [] then [] else AllLines(entries[..|entries| - 1]) + entries[|entries| - 1].lines
  }

  function EntryDebit(e: Entry): int {
    Sum(e.lines, Debit)
  }

  /** Summing line by line is summing entry by entry; with balanced entries both columns agree. */
  lemma {:induction false} LinesBalance(entries: seq<Entry>)
    requires forall i | 0 <= i < |entries| :: Balanced(entries[i].lines)
    ensures Sum(AllLines(entries), Debit) == Sum(entries, EntryDebit)
    ensures Sum(AllLines(entries), Debit) == Sum(AllLines(entries), Credit)
  {
    if entries == [] {
    } else {
      var init, last := entries[..|entries| - 1], entries[|entries| - 1];
      assert forall i | 0 <= i < |init| :: init[i] == entries[i];
      assert Balanced(last.lines);
      LinesBalance(init);
      SumAppend(AllLines(init), last.lines, Debit);
      SumAppend(AllLines(init), last.lines, Credit);
    }
  }

  lemma {:induction false} LinesKnown(entries: seq<Entry>, accounts: map<nat, Account>)
    requires forall i | 0 <= i < |entries| :: AllIn(entries[i].lines, accounts)
    ensures forall line | line in AllLines(entries) :: line.account in accounts
  {
    if entries == [] {
    } else {
      var init, last := entries[..|entries| - 1], entries[|entries| - 1];
      assert forall i | 0 <= i < |init| :: init[i] == entries[i];
      assert AllIn(last.lines, accounts);
      LinesKnown(init, accounts);
    }
  }

  // ---- Trial balance ----

  datatype Group = Group(account: nat, debit: int, credit: int)

  /** What `GROUP BY account` over the given accounts promises: one group for each that has a line, in some order. */
  ghost predicate IsGrouping(groups: seq<Group>, lines: seq<Line>, accounts: seq<nat>) {
    && (forall i, j | 0 <= i < j < |groups| :: groups[i].account != groups[j].account)
    && (forall g | g in groups ::
          g.account in accounts
          && g.debit == SumOf(lines, AccountOf, Debit, g.account) && g.credit == SumOf(lines, AccountOf, Credit, g.account))
    && (forall line | line in lines && line.account in accounts :: exists g :: g in groups && g.account == line.account)
  }

  datatype AccountView = AccountView(account: nat, totalDebit: int, totalCredit: int, balance: int)

  function ViewOf(lines: seq<Line>, account: nat): AccountView {
    var (debit, credit) := (SumOf(lines, AccountOf, Debit, account), SumOf(lines, AccountOf, Credit, account));
    AccountView(account, debit, credit, debit - credit)
  }

  /**
   The trial balance over the accounts in their listed order. Accounts without a line show zeros; the
   grand totals are those of all lines on the listed accounts. `lines` are the lines as the grouped query
   finds them, which is after the accounts were listed.
   */
  method TrialBalance(order: seq<nat>, groups: seq<Group>, ghost lines: seq<Line>)
    returns (views: seq<AccountView>, totalDebit: int, totalCredit: int)
    requires Distinct(order) && IsGrouping(groups, lines, order)
    ensures |views| == |order| && forall i | 0 <= i < |order| ::
      views[i].account == order[i]
      && views[i].totalDebit == SumOf(lines, AccountOf, Debit, order[i])
      && views[i].totalCredit == SumOf(lines, AccountOf, Credit, order[i])
      && views[i].balance == SumOf(lines, AccountOf, Debit, order[i]) - SumOf(lines, AccountOf, Credit, order[i])
    ensures totalDebit == SumIn(lines, AccountOf, Debit, Elements(order))
    ensures totalCredit == SumIn(lines, AccountOf, Credit, Elements(order))
  {
    var balances: map<nat, (int, int)> := map[];
    for i := 0 to |groups|
      invariant forall a :: a in balances <==> exists k | 0 <= k < i :: groups[k].account == a
      invariant forall k | 0 <= k < i :: balances[groups[k].account] == (groups[k].debit, groups[k].credit)
    {
      balances := balances[groups[i].account := (groups[i].debit, groups[i].credit)];
    }
    forall a | a in order
      ensures (if a in balances then balances[a] else (0, 0)) ==
              (SumOf(lines, AccountOf, Debit, a), SumOf(lines, AccountOf, Credit, a))
    {
      if a !in balances {
        SumOfAbsent(lines, AccountOf, Debit, a);
        SumOfAbsent(lines, AccountOf, Credit, a);
      }
    }
    views, totalDebit, totalCredit := [], 0, 0;
    for i := 0 to |order|
      invariant |views| == i && forall k | 0 <= k < i :: views[k] == ViewOf(lines, order[k])
      invariant totalDebit == SumGroups(lines, AccountOf, Debit, order[..i])
      invariant totalCredit == SumGroups(lines, AccountOf, Credit, order[..i])
    {
      assert order[..i + 1][..i] == order[..i];
      var (debit, credit) := if order[i] in balances then balances[order[i]] else (0, 0);
      views := views + [AccountView(order[i], debit, credit, debit - credit)];
      totalDebit, totalCredit := totalDebit + debit, totalCredit + credit;
    }
    assert order[..|order|] == order;
    GroupsAddUp(lines, AccountOf, Debit, order);
    GroupsAddUp(lines, AccountOf, Credit, order);
  }

  lemma {:induction false} SumInExpense(lines: seq<Line>, ids: set<nat>)
    ensures SumIn(lines, AccountOf, Expense, ids) == SumIn(lines, AccountOf, Debit, ids) - SumIn(lines, AccountOf, Credit, ids)
  {
    if lines == [] {
    } else {
      SumInExpense(lines[..|lines| - 1], ids);
    }
  }

  /** A line adds to the columns of its own account, its debit to the one and its credit to the other. */
  lemma LineInColumns(lines: seq<Line>, line: Line, account: nat)
    ensures SumOf(lines + [line], AccountOf, Debit, account)
         == SumOf(lines, AccountOf, Debit, account) + if line.account == account then line.debit else 0
    ensures SumOf(lines + [line], AccountOf, Credit, account)
         == SumOf(lines, AccountOf, Credit, account) + if line.account == account then line.credit else 0
    ensures SumOf(lines + [line], AccountOf, Revenue, account)
         == SumOf(lines, AccountOf, Revenue, account) + if line.account == account then line.credit - line.debit else 0
    ensures SumOf(lines + [line], AccountOf, Expense, account)
         == SumOf(lines, AccountOf, Expense, account) + if line.account == account then line.debit - line.credit else 0
  {
    SumOfSnoc(lines, line, AccountOf, Debit, account);
    SumOfSnoc(lines, line, AccountOf, Credit, account);
    SumOfSnoc(lines, line, AccountOf, Revenue, account);
    SumOfSnoc(lines, line, AccountOf, Expense, account);
  }

  /**
   The accounts are listed by one statement and the lines grouped by a later one, entries and accounts
   being added in between. The two columns of the trial balance agree exactly when the accounts opened in
   between are balanced among themselves; with none of them posted to, they are all the lines there are.
   */
  lemma TrialBalanceAgreesExactlyWhen(run: seq<Books>, i: nat, j: nat, order: seq<nat>)
    requires IsRun(run) && i <= j < |run| && Elements(order) == run[i].accounts.Keys
    ensures var (lines, added) := (AllLines(run[j].entries), run[j].accounts.Keys - run[i].accounts.Keys);
      && (SumIn(lines, AccountOf, Debit, Elements(order)) == SumIn(lines, AccountOf, Credit, Elements(order))
          <==> SumIn(lines, AccountOf, Expense, added) == 0)
      && ((forall line | line in lines :: line.account !in added) ==>
            SumIn(lines, AccountOf, Debit, Elements(order)) == Sum(lines, Debit)
            && SumIn(lines, AccountOf, Credit, Elements(order)) == Sum(lines, Credit))
  {
    RunKeepsBooks(run, j);
    AccountsStay(run, i, j);
    var lines, listed := AllLines(run[j].entries), run[i].accounts.Keys;
    var late := run[j].accounts.Keys - listed;
    LinesBalance(run[j].entries);
    LinesKnown(run[j].entries, run[j].accounts);
    AllKeysAllItems(lines, AccountOf, Expense, run[j].accounts.Keys);
    SumExpense(lines);
    SumInSplits(lines, Expense, listed, late);
    assert listed + late == run[j].accounts.Keys;
    SumInExpense(lines, listed);
    if forall line | line in lines :: line.account !in late {
      AllKeysAllItems(lines, AccountOf, Debit, listed);
      AllKeysAllItems(lines, AccountOf, Credit, listed);
    }
  }

  /** Accounts are never removed. */
  lemma {:induction false} AccountsStay(run: seq<Books>, i: nat, j: nat)
    requires IsRun(run) && i <= j < |run|
    ensures run[i].accounts.Keys <= run[j].accounts.Keys
  {
    if i < j {
      AccountsStay(run, i, j - 1);
      assert Next(run[j - 1], run[j - 1 + 1]);
    }
  }

  /**
   In every reachable journal, adding the accounts' totals gives what adding the entries gives, on
   both columns, and the two columns agree.
   */
  lemma TrialBalanceBalances(run: seq<Books>, i: nat, order: seq<nat>)
    requires IsRun(run) && i < |run| && Distinct(order) && Elements(order) == run[i].accounts.Keys
    ensures var lines := AllLines(run[i].entries);
      && SumGroups(lines, AccountOf, Debit, order) == Sum(run[i].entries, EntryDebit)
      && SumGroups(lines, AccountOf, Credit, order) == Sum(run[i].entries, EntryDebit)
  {
    RunKeepsBooks(run, i);
    var lines := AllLines(run[i].entries);
    LinesBalance(run[i].entries);
    LinesKnown(run[i].entries, run[i].accounts);
    GroupsAddUp(lines, AccountOf, Debit, order);
    GroupsAddUp(lines, AccountOf, Credit, order);
    AllKeysAllItems(lines, AccountOf, Debit, Elements(order));
    AllKeysAllItems(lines, AccountOf, Credit, Elements(order));
  }

  // ---- Income statement ----

  function InPeriod(entries: seq<Entry>, from: int, to: int): seq<Entry> {
    if entries == [] then []
    else
      var last := entries[|entries| - 1];
      InPeriod(entries[..|entries| - 1], from, to) + if from <= last.date <= to then [last] else []
  }

  predicate InClass(account: Account, digit: char) {
    account.code != [] && account.code[0] == digit
  }

  function ClassIds(accounts: map<nat, Account>, digit: char): set<nat> {
    set a | a in accounts && InClass(accounts[a], digit)
  }

  function Revenue(line: Line): int {
    line.credit - line.debit
  }

  function Expense(line: Line): int {
    line.debit - line.credit
  }

  /** The lines of the period on accounts of class 6 or 7. */
  function ResultLines(lines: seq<Line>, accounts: map<nat, Account>): seq<Line> {
    if lines == [] then []
    else
      var last := lines[|lines| - 1];
      ResultLines(lines[..|lines| - 1], accounts)
      + if last.account in ClassIds(accounts, '6') + ClassIds(accounts, '7') then [last] else []
  }

  lemma {:induction false} ResultLinesSum(lines: seq<Line>, accounts: map<nat, Account>, amount: Line -> int, ids: set<nat>)
    requires ids <= ClassIds(accounts, '6') + ClassIds(accounts, '7')
    ensures SumIn(ResultLines(lines, accounts), AccountOf, amount, ids) == SumIn(lines, AccountOf, amount, ids)
  {
    if lines == [] {
    } else {
      var init, last := lines[..|lines| - 1], lines[|lines| - 1];
      ResultLinesSum(init, accounts, amount, ids);
      if last.account in ClassIds(accounts, '6') + ClassIds(accounts, '7') {
        assert (ResultLines(init, accounts) + [last])[..|ResultLines(init, accounts)|] == ResultLines(init, accounts);
      } else {
        assert ResultLines(lines, accounts) == ResultLines(init, accounts);
      }
    }
  }

  lemma {:induction false} ResultLinesClasses(lines: seq<Line>, accounts: map<nat, Account>)
    ensures forall line | line in ResultLines(lines, accounts) ::
      line.account in ClassIds(accounts, '6') + ClassIds(accounts, '7')
  {
    if lines == [] {
    } else {
      ResultLinesClasses(lines[..|lines| - 1], accounts);
    }
  }

  datatype AccountLine = AccountLine(account: nat, amount: int)

  function Amount(line: AccountLine): int {
    line.amount
  }

  function Only(order: seq<nat>, ids: set<nat>): seq<nat> {
    if order == [] then []
    else Only(order[..|order| - 1], ids) + if order[|order| - 1] in ids then [order[|order| - 1]] else []
  }

  lemma {:induction false} OnlyKeepsDistinct(order: seq<nat>, ids: set<nat>)
    requires Distinct(order)
    ensures Distinct(Only(order, ids)) && Elements(Only(order, ids)) == Elements(order) * ids
  {
    if order == [] {
    } else {
      DistinctPrefix(order);
      OnlyKeepsDistinct(order[..|order| - 1], ids);
      var last := order[|order| - 1];
      assert last !in Elements(Only(order[..|order| - 1], ids));
      if last in ids {
        assert Only(order, ids) == Only(order[..|order| - 1], ids) + [last];
        assert Elements(Only(order, ids)) == Elements(Only(order[..|order| - 1], ids)) + {last};
      } else {
        assert Only(order, ids) == Only(order[..|order| - 1], ids);
      }
    }
  }

  lemma {:induction false} NetOfColumns(lines: seq<Line>, a: nat)
    ensures SumOf(lines, AccountOf, Revenue, a) == SumOf(lines, AccountOf, Credit, a) - SumOf(lines, AccountOf, Debit, a)
    ensures SumOf(lines, AccountOf, Expense, a) == SumOf(lines, AccountOf, Debit, a) - SumOf(lines, AccountOf, Credit, a)
  {
    if lines == [] {
    } else {
      NetOfColumns(lines[..|lines| - 1], a);
    }
  }

  ghost predicate HasLine(lines: seq<Line>, account: nat) {
    exists line :: line in lines && line.account == account
  }

  lemma HasLineAt(lines: seq<Line>, i: nat)
    requires i < |lines|
    ensures lines[i] in lines && HasLine(lines, lines[i].account)
  {
  }

  /** The accounts with a line, in the order of their first one, and their two column sums. */
  method AccumulateByAccount(lines: seq<Line>, ghost known: set<nat>)
    returns (order: seq<nat>, byAccount: map<nat, (int, int)>)
    requires forall line | line in lines :: line.account in known
    ensures Distinct(order) && Elements(order) == byAccount.Keys <= known
    ensures forall line | line in lines :: line.account in byAccount
    ensures forall a | a in byAccount :: HasLine(lines, a)
    ensures forall a | a in byAccount ::
      byAccount[a] == (SumOf(lines, AccountOf, Debit, a), SumOf(lines, AccountOf, Credit, a))
  {
    hide HasLine;
    order, byAccount := [], map[];
    for i := 0 to |lines|
      invariant Distinct(order) && Elements(order) == byAccount.Keys <= known
      invariant forall k | 0 <= k < i :: lines[k].account in byAccount
      invariant forall a | a in byAccount :: HasLine(lines, a)
      invariant forall a | a in byAccount ::
        byAccount[a] == (SumOf(lines[..i], AccountOf, Debit, a), SumOf(lines[..i], AccountOf, Credit, a))
    {
      assert lines[..i + 1][..i] == lines[..i];
      var account := lines[i].account;
      if account !in byAccount {
        SumOfAbsent(lines[..i], AccountOf, Debit, account);
        SumOfAbsent(lines[..i], AccountOf, Credit, account);
        order := order + [account];
        byAccount := byAccount[account := (0, 0)];
      }
      var (debit, credit) := byAccount[account];
      byAccount := byAccount[account := (debit + lines[i].debit, credit + lines[i].credit)];
      HasLineAt(lines, i);
    }
    assert lines[..|lines|] == lines;
  }

  /** One row per account, carrying the net of its lines. */
  function Rows(lines: seq<Line>, amount: Line -> int, ids: seq<nat>): seq<AccountLine> {
    if ids == [] then []
    else
      var last := ids[|ids| - 1];
      Rows(lines, amount, ids[..|ids| - 1]) + [AccountLine(last, SumOf(lines, AccountOf, amount, last))]
  }

  lemma {:induction false} RowsAddUp(lines: seq<Line>, amount: Line -> int, ids: seq<nat>)
    ensures Sum(Rows(lines, amount, ids), Amount) == SumGroups(lines, AccountOf, amount, ids)
  {
    if ids == [] {
    } else {
      var init := Rows(lines, amount, ids[..|ids| - 1]);
      RowsAddUp(lines, amount, ids[..|ids| - 1]);
      assert Rows(lines, amount, ids)[..|init|] == init;
    }
  }

  /** Visiting one more account adds its row when it is of the class, and nothing otherwise. */
  lemma RowsNext(lines: seq<Line>, amount: Line -> int, order: seq<nat>, i: nat, ids: set<nat>)
    requires i < |order|
    ensures Rows(lines, amount, Only(order[..i + 1], ids)) ==
      if order[i] in ids then Rows(lines, amount, Only(order[..i], ids)) + [AccountLine(order[i], SumOf(lines, AccountOf, amount, order[i]))]
      else Rows(lines, amount, Only(order[..i], ids))
  {
    var before := Only(order[..i], ids);
    assert order[..i + 1][..i] == order[..i];
    if order[i] in ids {
      assert Only(order[..i + 1], ids) == before + [order[i]];
      assert (before + [order[i]])[..|before|] == before;
    } else {
      assert Only(order[..i + 1], ids) == before;
    }
  }

  lemma OneClassOnly(accounts: map<nat, Account>, a: nat)
    requires a in ClassIds(accounts, '6') + ClassIds(accounts, '7')
    ensures a in accounts && accounts[a].code != []
    ensures a in ClassIds(accounts, '7') <==> accounts[a].code[0] == '7'
    ensures a in ClassIds(accounts, '6') <==> accounts[a].code[0] != '7'
  {
  }

  function RevenueRows(lines: seq<Line>, accounts: map<nat, Account>, order: seq<nat>): seq<AccountLine> {
    Rows(lines, Revenue, Only(order, ClassIds(accounts, '7')))
  }

  function ExpenseRows(lines: seq<Line>, accounts: map<nat, Account>, order: seq<nat>): seq<AccountLine> {
    Rows(lines, Expense, Only(order, ClassIds(accounts, '6')))
  }

  /** Visiting an account of class 6 or 7 adds one row, on the side its first digit says. */
  lemma NextRow(lines: seq<Line>, accounts: map<nat, Account>, order: seq<nat>, i: nat)
    requires i < |order| && order[i] in ClassIds(accounts, '6') + ClassIds(accounts, '7')
    ensures order[i] in accounts && accounts[order[i]].code != []
    ensures var (debit, credit) := (SumOf(lines, AccountOf, Debit, order[i]), SumOf(lines, AccountOf, Credit, order[i]));
      if accounts[order[i]].code[0] == '7' then
        RevenueRows(lines, accounts, order[..i + 1]) == RevenueRows(lines, accounts, order[..i]) + [AccountLine(order[i], credit - debit)]
        && ExpenseRows(lines, accounts, order[..i + 1]) == ExpenseRows(lines, accounts, order[..i])
      else
        ExpenseRows(lines, accounts, order[..i + 1]) == ExpenseRows(lines, accounts, order[..i]) + [AccountLine(order[i], debit - credit)]
        && RevenueRows(lines, accounts, order[..i + 1]) == RevenueRows(lines, accounts, order[..i])
  {
    hide Rows, Only, SumOf;
    OneClassOnly(accounts, order[i]);
    RowsNext(lines, Revenue, order, i, ClassIds(accounts, '7'));
    RowsNext(lines, Expense, order, i, ClassIds(accounts, '6'));
    NetOfColumns(lines, order[i]);
  }

  /**
   The rows of the income statement: class 7 with a credit balance, class 6 with a debit balance, in the
   order in which the accounts first appear.
   */
  method SplitByClass(lines: seq<Line>, accounts: map<nat, Account>)
    returns (revenue: seq<AccountLine>, expenses: seq<AccountLine>, order: seq<nat>)
    requires forall line | line in lines :: line.account in ClassIds(accounts, '6') + ClassIds(accounts, '7')
    ensures Distinct(order) && (forall line | line in lines :: line.account in Elements(order))
    ensures forall a | a in order :: HasLine(lines, a)
    ensures revenue == RevenueRows(lines, accounts, order)
    ensures expenses == ExpenseRows(lines, accounts, order)
  {
    hide RevenueRows, ExpenseRows, SumOf, HasLine;
    var visited, byAccount := AccumulateByAccount(lines, ClassIds(accounts, '6') + ClassIds(accounts, '7'));
    order := visited;
    revenue, expenses := [], [];
    NoRows(lines, accounts);
    for i := 0 to |visited|
      invariant revenue == RevenueRows(lines, accounts, visited[..i])
      invariant expenses == ExpenseRows(lines, accounts, visited[..i])
    {
      var account := visited[i];
      assert account in Elements(visited);
      NextRow(lines, accounts, visited, i);
      var (debit, credit) := byAccount[account];
      if accounts[account].code[0] == '7' {
        revenue := revenue + [AccountLine(account, credit - debit)];
      } else {
        expenses := expenses + [AccountLine(account, debit - credit)];
      }
    }
    assert visited[..|visited|] == visited;
    assert forall a | a in visited :: a in Elements(visited);
  }

  lemma NoRows(lines: seq<Line>, accounts: map<nat, Account>)
    ensures RevenueRows(lines, accounts, []) == ExpenseRows(lines, accounts, []) == []
  {
  }

  lemma {:induction false} RowsAccounts(lines: seq<Line>, amount: Line -> int, ids: seq<nat>)
    ensures |Rows(lines, amount, ids)| == |ids|
    ensures forall i | 0 <= i < |ids| :: Rows(lines, amount, ids)[i].account == ids[i]
  {
    if ids == [] {
    } else {
      RowsAccounts(lines, amount, ids[..|ids| - 1]);
    }
  }

  lemma {:induction false} ResultLinesMembers(lines: seq<Line>, accounts: map<nat, Account>)
    ensures forall line :: line in ResultLines(lines, accounts) <==>
      line in lines && line.account in ClassIds(accounts, '6') + ClassIds(accounts, '7')
  {
    if lines == [] {
    } else {
      var init, last := lines[..|lines| - 1], lines[|lines| - 1];
      ResultLinesMembers(init, accounts);
      assert lines == init + [last];
    }
  }

  ghost predicate HasRow(rows: seq<AccountLine>, account: nat) {
    exists i | 0 <= i < |rows| :: rows[i].account == account
  }

  /** Each account of the class that has a line in the period has exactly one row, and no other has any. */
  ghost predicate OneRowEach(rows: seq<AccountLine>, period: seq<Line>, ids: set<nat>) {
    && (forall i, j | 0 <= i < j < |rows| :: rows[i].account != rows[j].account)
    && (forall a :: HasRow(rows, a) <==> a in ids && HasLine(period, a))
  }

  lemma RowsOncePerAccount(
      period: seq<Line>, accounts: map<nat, Account>, amount: Line -> int, order: seq<nat>, ids: set<nat>)
    requires ids <= ClassIds(accounts, '6') + ClassIds(accounts, '7') && Distinct(order)
    requires forall line | line in ResultLines(period, accounts) :: line.account in Elements(order)
    requires forall a | a in order :: HasLine(ResultLines(period, accounts), a)
    ensures OneRowEach(Rows(ResultLines(period, accounts), amount, Only(order, ids)), period, ids)
  {
    var lines := ResultLines(period, accounts);
    var rows, chosen := Rows(lines, amount, Only(order, ids)), Only(order, ids);
    OnlyKeepsDistinct(order, ids);
    RowsAccounts(lines, amount, chosen);
    ResultLinesMembers(period, accounts);
    forall a
      ensures HasRow(rows, a) <==> a in ids && HasLine(period, a)
    {
      assert HasRow(rows, a) <==> a in Elements(chosen) by {
        if a in Elements(chosen) {
          var i :| 0 <= i < |chosen| && chosen[i] == a;
          assert rows[i].account == a;
        }
      }
    }
  }

  /** Sorting keeps the rows: the same accounts, once each. */
  lemma SortKeepsRows(rows: seq<AccountLine>, sorted: seq<AccountLine>, period: seq<Line>, ids: set<nat>)
    requires multiset(sorted) == multiset(rows) && OneRowEach(rows, period, ids)
    ensures OneRowEach(sorted, period, ids)
  {
    assert forall row :: row in sorted <==> row in multiset(sorted);
    assert forall row :: row in rows <==> row in multiset(rows);
    forall a
      ensures HasRow(sorted, a) <==> HasRow(rows, a)
    {
      if HasRow(sorted, a) {
        var i :| 0 <= i < |sorted| && sorted[i].account == a;
        assert sorted[i] in rows;
      }
      if HasRow(rows, a) {
        var i :| 0 <= i < |rows| && rows[i].account == a;
        assert rows[i] in sorted;
      }
    }
    forall i, j | 0 <= i < j < |sorted|
      ensures sorted[i].account != sorted[j].account
    {
      if sorted[i].account == sorted[j].account {
        assert sorted[i] in rows && sorted[j] in rows;
        TwiceInMultiset(sorted, i, j);
        OnceInMultiset(rows, sorted[i]);
      }
    }
  }

  lemma TwiceInMultiset(rows: seq<AccountLine>, i: nat, j: nat)
    requires i < j < |rows| && rows[i] == rows[j]
    ensures multiset(rows)[rows[i]] >= 2
  {
    assert rows == rows[..i] + [rows[i]] + rows[i + 1..j] + [rows[j]] + rows[j + 1..];
  }

  lemma OnceInMultiset(rows: seq<AccountLine>, row: AccountLine)
    requires row in rows && forall i, j | 0 <= i < j < |rows| :: rows[i].account != rows[j].account
    ensures multiset(rows)[row] == 1
  {
    var k :| 0 <= k < |rows| && rows[k] == row;
    assert rows == rows[..k] + [row] + rows[k + 1..];
    assert row !in rows[..k] && row !in rows[k + 1..];
  }

  lemma GroupsCoverClass(lines: seq<Line>, order: seq<nat>, amount: Line -> int, ids: set<nat>)
    requires Distinct(order) && forall line | line in lines :: line.account in Elements(order)
    ensures SumGroups(lines, AccountOf, amount, Only(order, ids)) == SumIn(lines, AccountOf, amount, ids)
  {
    OnlyKeepsDistinct(order, ids);
    GroupsAddUp(lines, AccountOf, amount, Only(order, ids));
    SumInVisited(lines, amount, Elements(order), ids);
  }

  lemma {:induction false} SumInVisited(lines: seq<Line>, amount: Line -> int, visited: set<nat>, ids: set<nat>)
    requires forall line | line in lines :: line.account in visited
    ensures SumIn(lines, AccountOf, amount, visited * ids) == SumIn(lines, AccountOf, amount, ids)
  {
    if lines == [] {
    } else {
      assert lines[|lines| - 1] in lines;
      assert forall line | line in lines[..|lines| - 1] :: line in lines;
      SumInVisited(lines[..|lines| - 1], amount, visited, ids);
    }
  }

  /**
   The income statement of a period: each total is the net of all the period's lines in its class, and
   each account of the class with a line has exactly one row. `sort` is the order by account code, which
   depends on the locale; all that matters here is that it loses and repeats nothing.
   */
  method IncomeStatement(b: Books, from: int, to: int, sort: seq<AccountLine> -> seq<AccountLine>)
    returns (revenue: seq<AccountLine>, expenses: seq<AccountLine>, totalRevenue: int, totalExpenses: int, netResult: int)
    requires forall rows :: multiset(sort(rows)) == multiset(rows)
    ensures var period := AllLines(InPeriod(b.entries, from, to));
      && totalRevenue == Sum(revenue, Amount) == SumIn(period, AccountOf, Revenue, ClassIds(b.accounts, '7'))
      && totalExpenses == Sum(expenses, Amount) == SumIn(period, AccountOf, Expense, ClassIds(b.accounts, '6'))
      && netResult == totalRevenue - totalExpenses
      && OneRowEach(revenue, period, ClassIds(b.accounts, '7'))
      && OneRowEach(expenses, period, ClassIds(b.accounts, '6'))
      && (forall row | row in revenue :: row.amount == SumOf(period, AccountOf, Revenue, row.account))
      && (forall row | row in expenses :: row.amount == SumOf(period, AccountOf, Expense, row.account))
  {
    var period := AllLines(InPeriod(b.entries, from, to));
    var lines := ResultLines(period, b.accounts);
    ResultLinesClasses(period, b.accounts);
    var unsortedRevenue, unsortedExpenses, order := SplitByClass(lines, b.accounts);
    revenue, expenses := sort(unsortedRevenue), sort(unsortedExpenses);
    totalRevenue, totalExpenses := Sum(revenue, Amount), Sum(expenses, Amount);
    netResult := totalRevenue - totalExpenses;
    RowsOfClass(period, b.accounts, Revenue, order, ClassIds(b.accounts, '7'), revenue);
    RowsOfClass(period, b.accounts, Expense, order, ClassIds(b.accounts, '6'), expenses);
  }

  /** What the rows of one class say about the period, in whatever order they are shown. */
  lemma RowsOfClass(
      period: seq<Line>, accounts: map<nat, Account>, amount: Line -> int, order: seq<nat>, ids: set<nat>, shown: seq<AccountLine>)
    requires ids <= ClassIds(accounts, '6') + ClassIds(accounts, '7') && Distinct(order)
    requires forall line | line in ResultLines(period, accounts) :: line.account in Elements(order)
    requires forall a | a in order :: HasLine(ResultLines(period, accounts), a)
    requires multiset(shown) == multiset(Rows(ResultLines(period, accounts), amount, Only(order, ids)))
    ensures Sum(shown, Amount) == SumIn(period, AccountOf, amount, ids)
    ensures OneRowEach(shown, period, ids)
    ensures forall row | row in shown :: row.amount == SumOf(period, AccountOf, amount, row.account)
  {
    var lines := ResultLines(period, accounts);
    var rows := Rows(lines, amount, Only(order, ids));
    SumOfPermutation(shown, rows, Amount);
    RowsAddUp(lines, amount, Only(order, ids));
    GroupsCoverClass(lines, order, amount, ids);
    ResultLinesSum(period, accounts, amount, ids);
    RowsShowNet(period, accounts, amount, order, ids);
    RowsOncePerAccount(period, accounts, amount, order, ids);
    SortKeepsRows(rows, shown, period, ids);
    forall row | row in shown
      ensures row.amount == SumOf(period, AccountOf, amount, row.account)
    {
      assert row in multiset(shown);
      assert row in rows;
    }
  }

  lemma {:induction false} OneKeySum(lines: seq<Line>, amount: Line -> int, a: nat)
    ensures SumIn(lines, AccountOf, amount, {a}) == SumOf(lines, AccountOf, amount, a)
  {
    SumInNoKeys(lines, AccountOf, amount);
    SumInAddsKey(lines, AccountOf, amount, {}, a);
    assert {} + {a} == {a};
  }

  /** Each row carries the net of all the period's lines on its account, not only of those fetched. */
  lemma {:induction false} RowsShowNet(
      period: seq<Line>, accounts: map<nat, Account>, amount: Line -> int, order: seq<nat>, ids: set<nat>)
    requires ids <= ClassIds(accounts, '6') + ClassIds(accounts, '7')
    ensures forall row | row in Rows(ResultLines(period, accounts), amount, Only(order, ids)) ::
      row.account in ids && row.amount == SumOf(period, AccountOf, amount, row.account)
  {
    if order == [] {
    } else {
      var init, last := order[..|order| - 1], order[|order| - 1];
      RowsShowNet(period, accounts, amount, init, ids);
      assert order[..|order|] == order;
      RowsNext(ResultLines(period, accounts), amount, order, |order| - 1, ids);
      if last in ids {
        ResultLinesSum(period, accounts, amount, {last});
        OneKeySum(period, amount, last);
        OneKeySum(ResultLines(period, accounts), amount, last);
      }
    }
  }

  // ---- The net result ----

  lemma {:induction false} SumInSplits(lines: seq<Line>, amount: Line -> int, ids: set<nat>, others: set<nat>)
    requires ids !! others
    ensures SumIn(lines, AccountOf, amount, ids + others)
         == SumIn(lines, AccountOf, amount, ids) + SumIn(lines, AccountOf, amount, others)
  {
    if lines == [] {
    } else {
      SumInSplits(lines[..|lines| - 1], amount, ids, others);
    }
  }

  lemma {:induction false} SumInOpposite(lines: seq<Line>, ids: set<nat>)
    ensures SumIn(lines, AccountOf, Revenue, ids) == -SumIn(lines, AccountOf, Expense, ids)
  {
    if lines == [] {
    } else {
      SumInOpposite(lines[..|lines| - 1], ids);
    }
  }

  lemma {:induction false} SumExpense(lines: seq<Line>)
    ensures Sum(lines, Expense) == Sum(lines, Debit) - Sum(lines, Credit)
  {
    if lines == [] {
    } else {
      SumExpense(lines[..|lines| - 1]);
    }
  }

  lemma {:induction false} PeriodEntries(entries: seq<Entry>, from: int, to: int)
    ensures forall e | e in InPeriod(entries, from, to) :: e in entries && from <= e.date <= to
    ensures forall e | e in entries && from <= e.date <= to :: e in InPeriod(entries, from, to)
  {
    if entries == [] {
    } else {
      PeriodEntries(entries[..|entries| - 1], from, to);
    }
  }

  /** The accounts that are neither expenses nor revenue: the balance-sheet side and class 8. */
  function OtherIds(accounts: map<nat, Account>): set<nat> {
    accounts.Keys - (ClassIds(accounts, '6') + ClassIds(accounts, '7'))
  }

  /**
   The net-result identity: in every reachable journal and for any period, revenue minus expenses is
   what all other accounts gained over the period, since each entry is balanced and falls whole inside
   the period or outside it.
   */
  lemma NetResultIdentity(run: seq<Books>, i: nat, from: int, to: int)
    requires IsRun(run) && i < |run|
    ensures var (b, period) := (run[i], AllLines(InPeriod(run[i].entries, from, to)));
      SumIn(period, AccountOf, Revenue, ClassIds(b.accounts, '7')) - SumIn(period, AccountOf, Expense, ClassIds(b.accounts, '6'))
      == SumIn(period, AccountOf, Expense, OtherIds(b.accounts))
  {
    RunKeepsBooks(run, i);
    var b, entries := run[i], InPeriod(run[i].entries, from, to);
    var period := AllLines(entries);
    PeriodEntries(b.entries, from, to);
    forall k | 0 <= k < |entries|
      ensures Balanced(entries[k].lines) && AllIn(entries[k].lines, b.accounts)
    {
      assert entries[k] in b.entries;
    }
    LinesBalance(entries);
    LinesKnown(entries, b.accounts);
    SumExpense(period);
    var six, seven := ClassIds(b.accounts, '6'), ClassIds(b.accounts, '7');
    AllKeysAllItems(period, AccountOf, Expense, b.accounts.Keys);
    assert b.accounts.Keys == six + seven + OtherIds(b.accounts);
    SumInSplits(period, Expense, six, seven);
    SumInSplits(period, Expense, six + seven, OtherIds(b.accounts));
    SumInOpposite(period, seven);
  }
}
