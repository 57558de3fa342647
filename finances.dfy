/** The financial dashboard's aggregation (app/dashboard/finances.tsx): the
    visible list chosen by tab and date filter and sorted by date, the
    paid/due/overdue/total summary over it, and the inflow and outflow totals. */
module Finances {
  import opened Transactions
  import opened Seqs

  /** The dashboard tab: only payables, only receivables, or all. */
  datatype Tab = Only(kind: Kind) | All

  /** The date picker's selection; either end may be missing. */
  datatype DateRange = DateRange(from: Option<Date>, to: Option<Date>)

  // ---------------------------------------------------------------------------
  // Selection and date filters
  // ---------------------------------------------------------------------------

  /** The list the tab starts from. */
  function BaseList(tab: Tab, payables: seq<Item>, receivables: seq<Item>): (r: seq<Item>)
    ensures multiset(r) == (match tab
                            case Only(Pagar) => multiset(payables)
                            case Only(Receber) => multiset(receivables)
                            case All => multiset(payables) + multiset(receivables))
    ensures tab == All ==>
      |r| == |payables| + |receivables| && r[..|payables|] == payables && r[|payables|..] == receivables
  {
    match tab
    case Only(Receber) => receivables
    case Only(Pagar) => payables
    case All => payables + receivables
  }

  /** Items dated within [from, to], both ends included. */
  function Between(from: Date, to: Date): Item -> bool
  {
    (x: Item) => DateLe(from, x.date) && DateLe(x.date, to)
  }

  /** Items dated on the given day (same year, month and day). */
  function OnDay(day: Date): Item -> bool
  {
    (x: Item) => x.date.year == day.year && x.date.month == day.month && x.date.day == day.day
  }

  /** Items dated in the month and year of `today`. */
  function InMonthOf(today: Date): Item -> bool
  {
    (x: Item) => x.date.month == today.month && x.date.year == today.year
  }

  /** Whether an item survives the date filter that applies. */
  predicate PassesDateFilter(x: Item, range: DateRange, showAllMonths: bool, today: Date)
  {
    match range.from
    case Some(from) =>
      (match range.to
       case Some(to) => DateLe(from, x.date) && DateLe(x.date, to)
       case None => x.date == from)
    case None => showAllMonths || (x.date.month == today.month && x.date.year == today.year)
  }

  /** The one date filter that applies, in priority order: a full range, then
      a single day, then the current month unless all months are shown. */
  function DateFilter(data: seq<Item>, range: DateRange, showAllMonths: bool, today: Date): (r: seq<Item>)
    ensures range.from.Some? && range.to.Some? ==>
      forall x :: multiset(r)[x] ==
        if DateLe(range.from.value, x.date) && DateLe(x.date, range.to.value) then multiset(data)[x] else 0
    ensures range.from.Some? && range.to.None? ==>
      forall x :: multiset(r)[x] == if x.date == range.from.value then multiset(data)[x] else 0
    ensures range.from.None? && !showAllMonths ==>
      forall x :: multiset(r)[x] ==
        if x.date.month == today.month && x.date.year == today.year then multiset(data)[x] else 0
    ensures range.from.None? && showAllMonths ==> r == data
    ensures forall x :: x in r <==> x in data && PassesDateFilter(x, range, showAllMonths, today)
  {
    match range.from
    case Some(from) =>
      (match range.to
       case Some(to) => Filter(data, Between(from, to))
       case None => Filter(data, OnDay(from)))
    case None =>
      if !showAllMonths then Filter(data, InMonthOf(today)) else data
  }

  /** The unsorted visible list: the tab's base list under the date filter. */
  function Selected(tab: Tab, payables: seq<Item>, receivables: seq<Item>,
                    range: DateRange, showAllMonths: bool, today: Date): (r: seq<Item>)
    ensures forall x :: x in r <==>
      x in BaseList(tab, payables, receivables) && PassesDateFilter(x, range, showAllMonths, today)
  {
    DateFilter(BaseList(tab, payables, receivables), range, showAllMonths, today)
  }

  /** When the lists hold only their own kind, the visible list holds exactly
      the items of the tab's kind (or all items) that pass the date filter. */
  lemma SelectedByKind(tab: Tab, payables: seq<Item>, receivables: seq<Item>,
                       range: DateRange, showAllMonths: bool, today: Date)
    requires forall x :: x in payables ==> x.kind == Pagar
    requires forall x :: x in receivables ==> x.kind == Receber
    ensures forall x :: x in Selected(tab, payables, receivables, range, showAllMonths, today) <==>
      && (x in payables || x in receivables)
      && (tab.Only? ==> x.kind == tab.kind)
      && PassesDateFilter(x, range, showAllMonths, today)
  {
    var base := BaseList(tab, payables, receivables);
    assert forall x :: x in base <==> multiset(base)[x] > 0;
  }

  /** True when no filter runs, so the visible list is the caller's own array. */
  predicate SortsInPlace(tab: Tab, range: DateRange, showAllMonths: bool)
  {
    tab.Only? && range.from.None? && showAllMonths
  }

  // ---------------------------------------------------------------------------
  // Sorting by date
  // ---------------------------------------------------------------------------

  predicate SortedByDate(s: seq<Item>)
  {
    forall i, j :: 0 <= i < j < |s| ==> DateLe(s[i].date, s[j].date)
  }

  /** The first n elements of `a` are in date order. */
  predicate SortedPrefix(a: array<Item>, n: int)
    reads a
    requires 0 <= n <= a.Length
  {
    forall p, q :: 0 <= p < q < n ==> DateLe(a[p].date, a[q].date)
  }

  /** data.sort((a, b) => a.date.localeCompare(b.date)), in place, as an
      insertion sort. */
  method SortByDate(a: array<Item>)
    modifies a
    ensures SortedByDate(a[..])
    ensures multiset(a[..]) == old(multiset(a[..]))
  {
    var i := 0;
    while i < a.Length
      invariant 0 <= i <= a.Length
      invariant SortedPrefix(a, i)
      invariant multiset(a[..]) == old(multiset(a[..]))
    {
      Insert(a, i);
      i := i + 1;
    }
  }

  /** Moves a[i] left past every later-dated element of the sorted prefix. */
  method Insert(a: array<Item>, i: int)
    requires 0 <= i < a.Length
    requires SortedPrefix(a, i)
    modifies a
    ensures SortedPrefix(a, i + 1)
    ensures multiset(a[..]) == old(multiset(a[..]))
  {
    var j := i;
    while 0 < j && DateLt(a[j].date, a[j - 1].date)
      invariant 0 <= j <= i
      invariant forall p, q :: 0 <= p < q <= i && p != j && q != j ==> DateLe(a[p].date, a[q].date)
      invariant forall q :: j < q <= i ==> DateLe(a[j].date, a[q].date)
      invariant multiset(a[..]) == old(multiset(a[..]))
    {
      SwapDown(a, j);
      j := j - 1;
    }
  }

  /** Exchanges a[j - 1] and a[j]. */
  method SwapDown(a: array<Item>, j: int)
    requires 0 < j < a.Length
    modifies a
    ensures a[..] == old(a[..])[j - 1 := old(a[j])][j := old(a[j - 1])]
    ensures multiset(a[..]) == old(multiset(a[..]))
  {
    var s := a[..];
    a[j - 1], a[j] := a[j], a[j - 1];
    assert s == s[..j - 1] + [s[j - 1], s[j]] + s[j + 1..];
    assert a[..] == s[..j - 1] + [s[j], s[j - 1]] + s[j + 1..];
  }

  /** A fresh array holding `s`. */
  method NewArray(s: seq<Item>) returns (a: array<Item>)
    ensures fresh(a) && a[..] == s
  {
    a := new Item[|s|](i requires 0 <= i < |s| => s[i]);
  }

  /** currentData: select by tab, apply the date filter, sort by date. When no
      filter runs and the tab is a single list, the sort reorders the caller's
      own array and returns it; otherwise the result is a new array and the
      caller's arrays are untouched. */
  method CurrentData(tab: Tab, payables: array<Item>, receivables: array<Item>,
                     range: DateRange, showAllMonths: bool, today: Date)
    returns (data: array<Item>)
    modifies payables, receivables
    ensures SortedByDate(data[..])
    ensures multiset(data[..]) ==
      multiset(Selected(tab, old(payables[..]), old(receivables[..]), range, showAllMonths, today))
    ensures SortsInPlace(tab, range, showAllMonths) ==>
      data == if tab.kind == Pagar then payables else receivables
    ensures !SortsInPlace(tab, range, showAllMonths) ==>
      fresh(data) && payables[..] == old(payables[..]) && receivables[..] == old(receivables[..])
    ensures payables != receivables && tab != Only(Pagar) ==> payables[..] == old(payables[..])
    ensures payables != receivables && tab != Only(Receber) ==> receivables[..] == old(receivables[..])
  {
    var base: array<Item>;
    match tab {
      case Only(Receber) => base := receivables;
      case Only(Pagar) => base := payables;
      case All => base := NewArray(payables[..] + receivables[..]);
    }
    assert base[..] == BaseList(tab, payables[..], receivables[..]);
    if range.from.Some? || !showAllMonths {
      data := NewArray(DateFilter(base[..], range, showAllMonths, today));
    } else {
      data := base;
    }
    SortByDate(data);
  }

  // ---------------------------------------------------------------------------
  // Summary: paid, due, overdue, total
  // ---------------------------------------------------------------------------

  datatype Summary = Summary(paid: int, due: int, overdue: int, total: int)

  const Zero := Summary(0, 0, 0, 0)

  function Plus(a: Summary, b: Summary): Summary
  {
    Summary(a.paid + b.paid, a.due + b.due, a.overdue + b.overdue, a.total + b.total)
  }

  datatype Bucket = PaidBucket | OverdueBucket | DueBucket

  /** Where an item's amount goes: paid if paid, else overdue if dated strictly
      before today, else due. */
  function BucketOf(x: Item, today: Date): (b: Bucket)
    ensures b == OverdueBucket <==> !x.paid && DateLt(x.date, today)
    ensures b == DueBucket <==> !x.paid && DateLe(today, x.date)
  {
    if x.paid then PaidBucket
    else if DateLt(x.date, today) then OverdueBucket
    else DueBucket
  }

  /** An item dated today is due, never overdue. */
  lemma DatedTodayNotOverdue(x: Item, today: Date)
    requires x.date == today
    ensures BucketOf(x, today) != OverdueBucket
    ensures Settled(x, today)
  {
  }

  /** A moment: a UTC calendar day and the milliseconds since its midnight. */
  datatype Instant = Instant(utcDay: Date, millis: nat)

  /** `new Date(item.date) < new Date()` as written: the item's date is read as
      midnight UTC and compared with the current moment. */
  predicate BeforeNowAsWritten(d: Date, now: Instant)
  {
    DateLt(d, now.utcDay) || (d == now.utcDay && now.millis > 0)
  }

  /** The bucket as the source computes it, against the current moment. */
  function BucketAsWritten(x: Item, now: Instant): (b: Bucket)
    ensures b == OverdueBucket <==> !x.paid && BeforeNowAsWritten(x.date, now)
  {
    if x.paid then PaidBucket
    else if BeforeNowAsWritten(x.date, now) then OverdueBucket
    else DueBucket
  }

  /** One millisecond into its own day, an unpaid item is already overdue as
      written, while the day comparison counts it as due. */
  lemma DatedTodayOverdueAsWritten()
    ensures var today := Date(2025, 5, 20);
            var x := Item("a", "", today, "", "", "", "1/1", false, -35000, Pagar);
            BucketAsWritten(x, Instant(today, 1)) == OverdueBucket && BucketOf(x, today) == DueBucket
  {
  }

  /** The reducer's callback: add |value| to the item's bucket and to the total. */
  function Step(acc: Summary, x: Item, today: Date): (r: Summary)
    ensures r.total == acc.total + Abs(x.value)
    ensures r.paid + r.due + r.overdue == acc.paid + acc.due + acc.overdue + Abs(x.value)
    ensures BucketOf(x, today) != PaidBucket ==> r.paid == acc.paid
    ensures BucketOf(x, today) != DueBucket ==> r.due == acc.due
    ensures BucketOf(x, today) != OverdueBucket ==> r.overdue == acc.overdue
  {
    var v := Abs(x.value);
    match BucketOf(x, today)
    case PaidBucket => acc.(paid := acc.paid + v, total := acc.total + v)
    case OverdueBucket => acc.(overdue := acc.overdue + v, total := acc.total + v)
    case DueBucket => acc.(due := acc.due + v, total := acc.total + v)
  }

  /** Array.prototype.reduce of Step over `s`, starting from `acc`. */
  function Reduce(acc: Summary, s: seq<Item>, today: Date): (r: Summary)
    ensures r.total == acc.total + SumMagnitudes(s)
    decreases s
  {
    if s == [] then acc else Reduce(Step(acc, s[0], today), s[1..], today)
  }

  /** The summary of a list: its total is the sum of the magnitudes. */
  function SummaryOf(s: seq<Item>, today: Date): (r: Summary)
    ensures r.total == SumMagnitudes(s)
  {
    Reduce(Zero, s, today)
  }

  /** The summary memo: the reduce over the visible array. */
  method ComputeSummary(data: array<Item>, today: Date) returns (summary: Summary)
    ensures summary == SummaryOf(data[..], today)
  {
    summary := Zero;
    var i := 0;
    while i < data.Length
      invariant 0 <= i <= data.Length
      invariant Reduce(summary, data[i..], today) == SummaryOf(data[..], today)
    {
      assert data[i..][0] == data[i];
      assert data[i..][1..] == data[i + 1..];
      summary := Step(summary, data[i], today);
      i := i + 1;
    }
  }

  predicate Balanced(s: Summary)
  {
    s.total == s.paid + s.due + s.overdue && s.paid >= 0 && s.due >= 0 && s.overdue >= 0
  }

  lemma {:induction false} ReduceKeepsBalance(acc: Summary, s: seq<Item>, today: Date)
    requires Balanced(acc)
    ensures Balanced(Reduce(acc, s, today))
    decreases s
  {
    if s != [] {
      ReduceKeepsBalance(Step(acc, s[0], today), s[1..], today);
    }
  }

  /** total = paid + due + overdue, every bucket is non-negative, and the
      empty list sums to zero. */
  lemma SummaryBalanced(s: seq<Item>, today: Date)
    ensures Balanced(SummaryOf(s, today))
    ensures s == [] ==> SummaryOf(s, today) == Zero
  {
    ReduceKeepsBalance(Zero, s, today);
  }

  /** Reducing from `acc` adds `acc` to the reduction from zero. */
  lemma {:induction false} ReduceAccumulates(acc: Summary, s: seq<Item>, today: Date)
    ensures Reduce(acc, s, today) == Plus(acc, SummaryOf(s, today))
    decreases s
  {
    if s != [] {
      ReduceAccumulates(Step(acc, s[0], today), s[1..], today);
      ReduceAccumulates(Step(Zero, s[0], today), s[1..], today);
    }
  }

  lemma {:induction false} SummaryOfConcat(a: seq<Item>, b: seq<Item>, today: Date)
    ensures SummaryOf(a + b, today) == Plus(SummaryOf(a, today), SummaryOf(b, today))
  {
    if a == [] {
      assert a + b == b;
    } else {
      assert (a + b)[0] == a[0];
      assert (a + b)[1..] == a[1..] + b;
      ReduceAccumulates(Step(Zero, a[0], today), a[1..] + b, today);
      ReduceAccumulates(Step(Zero, a[0], today), a[1..], today);
      SummaryOfConcat(a[1..], b, today);
    }
  }

  /** Taking the first element off `a` and its match off `b` keeps them
      permutations of each other. */
  lemma RemoveMatched(a: seq<Item>, b: seq<Item>, k: int)
    requires a != [] && 0 <= k < |b| && b[k] == a[0]
    requires multiset(a) == multiset(b)
    ensures multiset(a[1..]) == multiset(b[..k] + b[k + 1..])
  {
    var x := a[0];
    assert a == [x] + a[1..];
    assert b == b[..k] + [x] + b[k + 1..];
    calc {
      multiset(a[1..]);
      multiset(a) - multiset{x};
      multiset(b) - multiset{x};
      multiset(b[..k]) + multiset(b[k + 1..]);
      multiset(b[..k] + b[k + 1..]);
    }
  }

  /** The summary does not depend on the order of the list, so sorting the
      visible list does not change it. */
  lemma {:induction false} SummaryPermutation(a: seq<Item>, b: seq<Item>, today: Date)
    requires multiset(a) == multiset(b)
    ensures SummaryOf(a, today) == SummaryOf(b, today)
    decreases |a|
  {
    if a == [] {
      assert |b| == |multiset(b)| == 0;
    } else {
      var x := a[0];
      assert x in multiset(b);
      var k :| 0 <= k < |b| && b[k] == x;
      var left, right := b[..k], b[k + 1..];
      assert b == left + ([x] + right);
      RemoveMatched(a, b, k);
      var sx, sl, sr := SummaryOf([x], today), SummaryOf(left, today), SummaryOf(right, today);
      calc {
        SummaryOf(a, today);
        { SummaryOfConcat([x], a[1..], today); }
        Plus(sx, SummaryOf(a[1..], today));
        { SummaryPermutation(a[1..], left + right, today); }
        Plus(sx, SummaryOf(left + right, today));
        { SummaryOfConcat(left, right, today); }
        Plus(sx, Plus(sl, sr));
        Plus(sl, Plus(sx, sr));
        { SummaryOfConcat([x], right, today); }
        Plus(sl, SummaryOf([x] + right, today));
        { SummaryOfConcat(left, [x] + right, today); }
        SummaryOf(left + ([x] + right), today);
        SummaryOf(b, today);
      }
    }
  }

  // ---------------------------------------------------------------------------
  // Inflow and outflow
  // ---------------------------------------------------------------------------

  /** Paid, or dated today or later. */
  predicate Settled(x: Item, today: Date)
  {
    x.paid || DateLe(today, x.date)
  }

  function Incoming(today: Date): Item -> bool
  {
    (x: Item) => x.value > 0 && Settled(x, today)
  }

  function Outgoing(today: Date): Item -> bool
  {
    (x: Item) => x.value < 0 && Settled(x, today)
  }

  /** Sum of the signed values. */
  function SumValues(s: seq<Item>): (r: int)
    ensures -SumMagnitudes(s) <= r <= SumMagnitudes(s)
  {
    if s == [] then 0 else s[0].value + SumValues(s[1..])
  }

  /** Sum of the absolute values. */
  function SumMagnitudes(s: seq<Item>): (r: int)
    ensures r >= 0
  {
    if s == [] then 0 else Abs(s[0].value) + SumMagnitudes(s[1..])
  }

  lemma {:induction false} SumOfPositives(s: seq<Item>)
    requires forall x :: x in s ==> x.value > 0
    ensures SumValues(s) >= 0
  {
    if s != [] {
      SumOfPositives(s[1..]);
    }
  }

  /** Money coming in: 0 unless the tab is "all"; otherwise the sum of the
      positive values that are paid or not yet past. */
  function Inflow(tab: Tab, data: seq<Item>, today: Date): (r: int)
    ensures r >= 0
    ensures tab != All ==> r == 0
  {
    if tab != All then 0
    else
      var kept := Filter(data, Incoming(today));
      SumOfPositives(kept);
      SumValues(kept)
  }

  /** Money going out: 0 unless the tab is "all"; otherwise the sum of |value|
      over the negative values that are paid or not yet past. */
  function Outflow(tab: Tab, data: seq<Item>, today: Date): (r: int)
    ensures r >= 0
    ensures tab != All ==> r == 0
  {
    if tab != All then 0 else SumMagnitudes(Filter(data, Outgoing(today)))
  }

  function Positive(): Item -> bool
  {
    (x: Item) => x.value > 0
  }

  function Negative(): Item -> bool
  {
    (x: Item) => x.value < 0
  }

  /** Inflow is the paid plus due part of the summary of the positive items:
      each paid or not-yet-past item with value > 0 adds its value. */
  lemma {:induction false} InflowIsPositivePart(data: seq<Item>, today: Date)
    ensures Inflow(All, data, today)
            == SummaryOf(Filter(data, Positive()), today).paid + SummaryOf(Filter(data, Positive()), today).due
  {
    if data != [] {
      var x, rest := data[0], data[1..];
      InflowIsPositivePart(rest, today);
      var ins := if Incoming(today)(x) then [x] else [];
      var pos := if Positive()(x) then [x] else [];
      assert Filter(data, Incoming(today)) == ins + Filter(rest, Incoming(today));
      assert Filter(data, Positive()) == pos + Filter(rest, Positive());
      SumValuesConcat(ins, Filter(rest, Incoming(today)));
      SummaryOfConcat(pos, Filter(rest, Positive()), today);
      InflowOfOne(x, today);
    }
  }

  lemma InflowOfOne(x: Item, today: Date)
    ensures var ins := if Incoming(today)(x) then [x] else [];
            var pos := if Positive()(x) then [x] else [];
            SumValues(ins) == SummaryOf(pos, today).paid + SummaryOf(pos, today).due
  {
    assert [x][1..] == [];
    if x.value > 0 {
      assert Reduce(Step(Zero, x, today), [], today) == Step(Zero, x, today);
    }
  }

  /** Outflow is the paid plus due part of the summary of the negative items:
      each paid or not-yet-past item with value < 0 adds its magnitude. */
  lemma {:induction false} OutflowIsNegativePart(data: seq<Item>, today: Date)
    ensures Outflow(All, data, today)
            == SummaryOf(Filter(data, Negative()), today).paid + SummaryOf(Filter(data, Negative()), today).due
  {
    if data != [] {
      var x, rest := data[0], data[1..];
      OutflowIsNegativePart(rest, today);
      var outs := if Outgoing(today)(x) then [x] else [];
      var neg := if Negative()(x) then [x] else [];
      assert Filter(data, Outgoing(today)) == outs + Filter(rest, Outgoing(today));
      assert Filter(data, Negative()) == neg + Filter(rest, Negative());
      SumMagnitudesConcat(outs, Filter(rest, Outgoing(today)));
      SummaryOfConcat(neg, Filter(rest, Negative()), today);
      OutflowOfOne(x, today);
    }
  }

  lemma OutflowOfOne(x: Item, today: Date)
    ensures var outs := if Outgoing(today)(x) then [x] else [];
            var neg := if Negative()(x) then [x] else [];
            SumMagnitudes(outs) == SummaryOf(neg, today).paid + SummaryOf(neg, today).due
  {
    assert [x][1..] == [];
    if x.value < 0 {
      assert Reduce(Step(Zero, x, today), [], today) == Step(Zero, x, today);
    }
  }

  /** On the "all" tab, inflow plus outflow is the paid plus due part of the
      summary: every paid or not-yet-past item moves |value| one way or the
      other, and a zero value moves nothing. */
  lemma {:induction false} FlowsMatchSummary(data: seq<Item>, today: Date)
    ensures Inflow(All, data, today) + Outflow(All, data, today)
            == SummaryOf(data, today).paid + SummaryOf(data, today).due
  {
    if data != [] {
      var x, rest := data[0], data[1..];
      FlowsMatchSummary(rest, today);
      ReduceAccumulates(Step(Zero, x, today), rest, today);
      var ins := if Incoming(today)(x) then [x] else [];
      var outs := if Outgoing(today)(x) then [x] else [];
      assert Filter(data, Incoming(today)) == ins + Filter(rest, Incoming(today));
      assert Filter(data, Outgoing(today)) == outs + Filter(rest, Outgoing(today));
      SumValuesConcat(ins, Filter(rest, Incoming(today)));
      SumMagnitudesConcat(outs, Filter(rest, Outgoing(today)));
    }
  }

  /** The sum of the values is additive over concatenation. */
  lemma {:induction false} SumValuesConcat(a: seq<Item>, b: seq<Item>)
    ensures SumValues(a + b) == SumValues(a) + SumValues(b)
  {
    if a == [] {
      assert a + b == b;
    } else {
      assert (a + b)[0] == a[0];
      assert (a + b)[1..] == a[1..] + b;
      SumValuesConcat(a[1..], b);
    }
  }

  /** The sum of the magnitudes is additive over concatenation. */
  lemma {:induction false} SumMagnitudesConcat(a: seq<Item>, b: seq<Item>)
    ensures SumMagnitudes(a + b) == SumMagnitudes(a) + SumMagnitudes(b)
  {
    if a == [] {
      assert a + b == b;
    } else {
      assert (a + b)[0] == a[0];
      assert (a + b)[1..] == a[1..] + b;
      SumMagnitudesConcat(a[1..], b);
    }
  }

  /** `i.paid || new Date(i.date) >= new Date()` as written: the item's UTC
      midnight against the current moment. */
  predicate SettledAsWritten(x: Item, now: Instant)
  {
    x.paid || !BeforeNowAsWritten(x.date, now)
  }

  function IncomingAsWritten(now: Instant): Item -> bool
  {
    (x: Item) => x.value > 0 && SettledAsWritten(x, now)
  }

  function OutgoingAsWritten(now: Instant): Item -> bool
  {
    (x: Item) => x.value < 0 && SettledAsWritten(x, now)
  }

  /** Inflow as the source computes it, against the current moment. */
  function InflowAsWritten(tab: Tab, data: seq<Item>, now: Instant): (r: int)
    ensures r >= 0
    ensures tab != All ==> r == 0
  {
    if tab != All then 0
    else
      var kept := Filter(data, IncomingAsWritten(now));
      SumOfPositives(kept);
      SumValues(kept)
  }

  /** Outflow as the source computes it, against the current moment. */
  function OutflowAsWritten(tab: Tab, data: seq<Item>, now: Instant): (r: int)
    ensures r >= 0
    ensures tab != All ==> r == 0
  {
    if tab != All then 0
    else SumMagnitudes(Filter(data, OutgoingAsWritten(now)))
  }

  /** One millisecond into their own day, an unpaid receivable of 200.00 and an
      unpaid payable of 100.00 drop out of inflow and outflow as written, while
      the day comparison still counts them. */
  lemma DatedTodayDroppedFromFlowsAsWritten()
    ensures var today := Date(2025, 5, 20);
            var p := Item("p", "", today, "", "", "", "1/1", false, -10000, Pagar);
            var r := Item("r", "", today, "", "", "", "1/1", false, 20000, Receber);
            && InflowAsWritten(All, [p, r], Instant(today, 1)) == 0
            && OutflowAsWritten(All, [p, r], Instant(today, 1)) == 0
            && Inflow(All, [p, r], today) == 20000
            && Outflow(All, [p, r], today) == 10000
  {
    var today := Date(2025, 5, 20);
    var p := Item("p", "", today, "", "", "", "1/1", false, -10000, Pagar);
    var r := Item("r", "", today, "", "", "", "1/1", false, 20000, Receber);
    UnpaidTodayAsWritten([p, r], Instant(today, 1));
    UnpaidTodayByDay(p, r, today);
  }

  /** Unpaid items dated on the current UTC day, past its first instant, pass
      neither as-written flow filter. */
  lemma {:induction false} UnpaidTodayAsWritten(s: seq<Item>, now: Instant)
    requires now.millis > 0
    requires forall i :: 0 <= i < |s| ==> !s[i].paid && s[i].date == now.utcDay
    ensures Filter(s, IncomingAsWritten(now)) == []
    ensures Filter(s, OutgoingAsWritten(now)) == []
  {
    if s != [] {
      UnpaidTodayAsWritten(s[1..], now);
    }
  }

  /** Under the day comparison, a payable and a receivable dated today count
      toward the flows whether paid or not. */
  lemma UnpaidTodayByDay(p: Item, r: Item, today: Date)
    requires p.date == today && r.date == today
    requires p.value < 0 && r.value > 0
    ensures Inflow(All, [p, r], today) == r.value
    ensures Outflow(All, [p, r], today) == -p.value
  {
    assert [p, r][1..] == [r] && [r][1..] == [];
    assert Filter([p, r], Incoming(today)) == [r];
    assert Filter([p, r], Outgoing(today)) == [p];
    assert SumValues([r]) == r.value;
    assert SumMagnitudes([p]) == -p.value;
  }

  // ---------------------------------------------------------------------------
  // Worked cases
  // ---------------------------------------------------------------------------

  /** An unpaid payable of 350.00 dated 2025-05-12, seen on 2025-05-20, is all overdue. */
  lemma OverdueScenario()
    ensures var x := Item("a", "", Date(2025, 5, 12), "", "", "", "1/1", false, -35000, Pagar);
            SummaryOf([x], Date(2025, 5, 20)) == Summary(0, 0, 35000, 35000)
  {
  }

  /** On the "all" tab, a paid payable of 100.00 and a paid receivable of
      200.00, both dated today, give inflow 200.00, outflow 100.00, total 300.00. */
  lemma FlowScenario()
    ensures var today := Date(2025, 5, 20);
            var p := Item("p", "", today, "", "", "", "1/1", true, -10000, Pagar);
            var r := Item("r", "", today, "", "", "", "1/1", true, 20000, Receber);
            Inflow(All, [p, r], today) == 20000 && Outflow(All, [p, r], today) == 10000
            && SummaryOf([p, r], today).total == 30000
  {
    var today := Date(2025, 5, 20);
    var p := Item("p", "", today, "", "", "", "1/1", true, -10000, Pagar);
    var r := Item("r", "", today, "", "", "", "1/1", true, 20000, Receber);
    assert [p, r][1..] == [r] && [r][1..] == [];
    assert Filter([p, r], Incoming(today)) == [r];
    assert Filter([p, r], Outgoing(today)) == [p];
    assert SumValues([r]) == 20000;
    assert SumMagnitudes([p]) == 10000;
  }
}
