/** The daily accumulator behind the sales and purchases reports. */
module DailyReport {
  import opened Sums
  import opened Money

  /** One confirmed document: the day it counts for, and its totals. */
  datatype Item = Item(day: int, totals: LineTotals)

  datatype Point = Point(day: int, count: int, totals: LineTotals)

  function DayOf(item: Item): int {
    item.day
  }

  function One(item: Item): int {
    1
  }

  function ExcludingTax(item: Item): int {
    item.totals.excludingTax
  }

  function Vat(item: Item): int {
    item.totals.vat
  }

  function IncludingTax(item: Item): int {
    item.totals.includingTax
  }

  function AddTotals(a: LineTotals, b: LineTotals): LineTotals {
    LineTotals(a.excludingTax + b.excludingTax, a.vat + b.vat, a.includingTax + b.includingTax)
  }

  function TotalsOf(items: seq<Item>): LineTotals {
    LineTotals(Sum(items, ExcludingTax), Sum(items, Vat), Sum(items, IncludingTax))
  }

  function TotalsOn(items: seq<Item>, day: int): LineTotals {
    LineTotals(SumOf(items, DayOf, ExcludingTax, day), SumOf(items, DayOf, Vat, day), SumOf(items, DayOf, IncludingTax, day))
  }

  /** What the point of a day must show. */
  function PointOf(items: seq<Item>, day: int): Point {
    Point(day, SumOf(items, DayOf, One, day), TotalsOn(items, day))
  }

  lemma PointAfter(items: seq<Item>, item: Item, day: int)
    ensures var p := PointOf(items, day);
      PointOf(items + [item], day) ==
      if item.day == day then Point(day, p.count + 1, AddTotals(p.totals, item.totals)) else p
  {
    SumOfSnoc(items, item, DayOf, One, day);
    SumOfSnoc(items, item, DayOf, ExcludingTax, day);
    SumOfSnoc(items, item, DayOf, Vat, day);
    SumOfSnoc(items, item, DayOf, IncludingTax, day);
  }

  lemma PointBefore(items: seq<Item>, day: int)
    requires forall i | 0 <= i < |items| :: items[i].day != day
    ensures PointOf(items, day) == Point(day, 0, LineTotals(0, 0, 0))
  {
    SumOfAbsent(items, DayOf, One, day);
    SumOfAbsent(items, DayOf, ExcludingTax, day);
    SumOfAbsent(items, DayOf, Vat, day);
    SumOfAbsent(items, DayOf, IncludingTax, day);
  }

  lemma TotalsAfter(items: seq<Item>, item: Item)
    ensures TotalsOf(items + [item]) == AddTotals(TotalsOf(items), item.totals)
  {
    assert (items + [item])[..|items|] == items;
  }

  ghost predicate PointsOk(items: seq<Item>, days: seq<int>, byDay: map<int, Point>) {
    && Distinct(days) && Elements(days) == byDay.Keys
    && (forall i | 0 <= i < |items| :: items[i].day in byDay)
    && (forall d | d in byDay :: byDay[d] == PointOf(items, d))
  }

  lemma PointsAfter(items: seq<Item>, item: Item, days: seq<int>, byDay: map<int, Point>, point: Point)
    requires PointsOk(items, days, byDay)
    requires point == if item.day in byDay then byDay[item.day] else Point(item.day, 0, LineTotals(0, 0, 0))
    ensures PointsOk(items + [item], if item.day in byDay then days else days + [item.day],
                     byDay[item.day := Point(item.day, point.count + 1, AddTotals(point.totals, item.totals))])
  {
    hide PointOf;
    var items', days' := items + [item], if item.day in byDay then days else days + [item.day];
    var byDay' := byDay[item.day := Point(item.day, point.count + 1, AddTotals(point.totals, item.totals))];
    if item.day !in byDay {
      PointBefore(items, item.day);
    }
    forall d | d in byDay'
      ensures byDay'[d] == PointOf(items', d)
    {
      PointAfter(items, item, d);
    }
    assert item.day in byDay ==> item.day in Elements(days);
    assert Elements(days') == byDay'.Keys;
  }

  /** Grand totals, one point per day in order of first appearance, and the items added so far. */
  class Accumulator {
    var count: nat
    var totals: LineTotals
    var days: seq<int>
    var byDay: map<int, Point>
    ghost var items: seq<Item>

    ghost predicate Valid()
      reads this
    {
      count == |items| && totals == TotalsOf(items) && PointsOk(items, days, byDay)
    }

    constructor ()
      ensures Valid() && items == []
    {
      count, totals, days, byDay, items := 0, LineTotals(0, 0, 0), [], map[], [];
    }

    method Add(item: Item)
      requires Valid()
      modifies this
      ensures Valid() && items == old(items) + [item]
    {
      hide PointsOk;
      var point := if item.day in byDay then byDay[item.day] else Point(item.day, 0, LineTotals(0, 0, 0));
      PointsAfter(items, item, days, byDay, point);
      TotalsAfter(items, item);
      count := count + 1;
      totals := AddTotals(totals, item.totals);
      if item.day !in byDay {
        days := days + [item.day];
      }
      byDay := byDay[item.day := Point(item.day, point.count + 1, AddTotals(point.totals, item.totals))];
      items := items + [item];
    }

    /** The points add up to the grand totals, and their counts to the number of documents. */
    lemma PointsAddUp()
      requires Valid()
      ensures SumGroups(items, DayOf, One, days) == count
      ensures LineTotals(SumGroups(items, DayOf, ExcludingTax, days), SumGroups(items, DayOf, Vat, days),
                         SumGroups(items, DayOf, IncludingTax, days)) == totals
    {
      GroupsAddUp(items, DayOf, One, days);
      GroupsAddUp(items, DayOf, ExcludingTax, days);
      GroupsAddUp(items, DayOf, Vat, days);
      GroupsAddUp(items, DayOf, IncludingTax, days);
      AllKeysAllItems(items, DayOf, One, Elements(days));
      AllKeysAllItems(items, DayOf, ExcludingTax, Elements(days));
      AllKeysAllItems(items, DayOf, Vat, Elements(days));
      AllKeysAllItems(items, DayOf, IncludingTax, Elements(days));
      OnePerItem(items);
    }
  }

  lemma {:induction false} OnePerItem(items: seq<Item>)
    ensures Sum(items, One) == |items|
  {
    if items == [] {
    } else {
      OnePerItem(items[..|items| - 1]);
    }
  }
}
