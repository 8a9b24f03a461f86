/**
 * The booking report of the resource-planning client (src/retain.ts): grouping rows by key
 * with a sum, the business days of a booking, the equal daily split, the carry-forward
 * rounding to hours and the weekly pivot with its totals.
 */
module Retain {
  import opened Js

  // ---------------------------------------------------------------------------------------
  // groupByAndSum

  /** A row: its other fields, and the field that is summed. */
  datatype Entry<T> = Entry(fields: T, amount: real)

  function AmountOf<T>(e: Entry<T>): real {
    e.amount
  }

  /** The `grouped` record: its keys in insertion order, and the entry under each key. */
  datatype Grouped<T> = Grouped(order: seq<string>, byKey: map<string, Entry<T>>)

  /** One step of the loop: a new key gets a copy of the row, a known key adds the row's amount. */
  function AddRow<T>(g: Grouped<T>, row: Entry<T>, key: T -> string): Grouped<T> {
    var k := key(row.fields);
    if k !in g.byKey then Grouped(g.order + [k], g.byKey[k := row])
    else g.(byKey := g.byKey[k := g.byKey[k].(amount := g.byKey[k].amount + row.amount)])
  }

  function GroupRows<T>(data: seq<Entry<T>>, key: T -> string): (g: Grouped<T>)
    ensures forall k :: k in g.order ==> k in g.byKey
  {
    if data == [] then Grouped([], map[])
    else AddRow(GroupRows(data[..|data| - 1], key), data[|data| - 1], key)
  }

  /** `Object.values(grouped)`: the entries in the order their keys were inserted. */
  function Values<T>(order: seq<string>, byKey: map<string, Entry<T>>): (r: seq<Entry<T>>)
    requires forall k :: k in order ==> k in byKey
    ensures |r| == |order|
  {
    if order == [] then [] else Values(order[..|order| - 1], byKey) + [byKey[order[|order| - 1]]]
  }

  lemma {:induction false} ValuesAt<T>(order: seq<string>, byKey: map<string, Entry<T>>)
    requires forall k :: k in order ==> k in byKey
    ensures forall i :: 0 <= i < |order| ==> Values(order, byKey)[i] == byKey[order[i]]
  {
    if order != [] {
      ValuesAt(order[..|order| - 1], byKey);
    }
  }

  lemma ValuesSnoc<T>(order: seq<string>, k: string, byKey: map<string, Entry<T>>)
    requires forall k' :: k' in order + [k] ==> k' in byKey
    ensures Values(order + [k], byKey) == Values(order, byKey) + [byKey[k]]
  {
    assert (order + [k])[..|order|] == order;
  }

  /** The key of every row, in row order. */
  function RowKeys<T>(data: seq<Entry<T>>, key: T -> string): (r: seq<string>)
    ensures |r| == |data| && forall i :: 0 <= i < |data| ==> r[i] == key(data[i].fields)
  {
    if data == [] then [] else RowKeys(data[..|data| - 1], key) + [key(data[|data| - 1].fields)]
  }

  predicate HasKey<T>(key: T -> string, k: string, row: Entry<T>) {
    key(row.fields) == k
  }

  function WithKey<T>(key: T -> string, k: string): Entry<T> -> bool {
    (row: Entry<T>) => HasKey(key, k, row)
  }

  /** The record's keys are the distinct row keys in order of first appearance. */
  lemma {:induction false} GroupOrder<T>(data: seq<Entry<T>>, key: T -> string)
    ensures var g := GroupRows(data, key);
            g.order == Dedupe(RowKeys(data, key)) && forall k :: k in g.order <==> k in g.byKey
  {
    if data != [] {
      var init := data[..|data| - 1];
      GroupOrder(init, key);
      assert RowKeys(data, key) == RowKeys(init, key) + [key(data[|data| - 1].fields)];
    }
  }

  /** The entry under a key has the fields of the first row with that key. */
  lemma {:induction false} GroupFields<T>(data: seq<Entry<T>>, key: T -> string)
    ensures var g := GroupRows(data, key);
            forall k :: k in g.byKey ==> k in RowKeys(data, key) && g.byKey[k].fields == data[FirstIndex(RowKeys(data, key), k)].fields
  {
    if data != [] {
      var init := data[..|data| - 1];
      var row := data[|data| - 1];
      GroupFields(init, key);
      var g := GroupRows(init, key);
      var keys := RowKeys(init, key);
      var k := key(row.fields);
      assert RowKeys(data, key) == keys + [k];
      forall k' | k' in GroupRows(data, key).byKey
        ensures k' in keys + [k] && GroupRows(data, key).byKey[k'].fields == data[FirstIndex(keys + [k], k')].fields
      {
        if k' in g.byKey {
          GroupFieldsKnown(data, key, k');
        } else {
          GroupOrder(init, key);
          assert k' == k && k !in keys;
          GroupFieldsNew(data, key);
        }
      }
    }
  }

  /** A later row leaves the fields under a key seen before. */
  lemma GroupFieldsKnown<T>(data: seq<Entry<T>>, key: T -> string, k: string)
    requires data != []
    requires k in GroupRows(data[..|data| - 1], key).byKey && k in RowKeys(data[..|data| - 1], key)
    requires GroupRows(data[..|data| - 1], key).byKey[k].fields
             == data[..|data| - 1][FirstIndex(RowKeys(data[..|data| - 1], key), k)].fields
    ensures GroupRows(data, key).byKey[k].fields == data[FirstIndex(RowKeys(data, key), k)].fields
  {
    var init := data[..|data| - 1];
    var keys := RowKeys(init, key);
    assert RowKeys(data, key) == keys + [key(data[|data| - 1].fields)];
    FirstIndexPrefix(keys, key(data[|data| - 1].fields), k);
  }

  /** The first row with a new key puts its own fields under the key. */
  lemma GroupFieldsNew<T>(data: seq<Entry<T>>, key: T -> string)
    requires data != []
    requires key(data[|data| - 1].fields) !in RowKeys(data[..|data| - 1], key)
    requires key(data[|data| - 1].fields) !in GroupRows(data[..|data| - 1], key).byKey
    ensures GroupRows(data, key).byKey[key(data[|data| - 1].fields)].fields
            == data[FirstIndex(RowKeys(data, key), key(data[|data| - 1].fields))].fields
  {
    var init := data[..|data| - 1];
    var k := key(data[|data| - 1].fields);
    var keys := RowKeys(init, key);
    assert RowKeys(data, key) == keys + [k];
    assert FirstIndex(keys + [k], k) == |keys|;
  }

  /** The entry under a key holds the sum of the amounts of the rows with that key. */
  lemma {:induction false} GroupAmounts<T(!new)>(data: seq<Entry<T>>, key: T -> string)
    ensures var g := GroupRows(data, key);
            forall k :: k in g.byKey ==> g.byKey[k].amount == SumBy(Filter(data, WithKey(key, k)), AmountOf)
  {
    if data != [] {
      var init := data[..|data| - 1];
      var row := data[|data| - 1];
      GroupAmounts(init, key);
      var g := GroupRows(init, key);
      var k := key(row.fields);
      forall k' | k' in GroupRows(data, key).byKey
        ensures GroupRows(data, key).byKey[k'].amount == SumBy(Filter(data, WithKey(key, k')), AmountOf)
      {
        SumBySnoc(Filter(init, WithKey(key, k')), row, AmountOf);
        if k' !in g.byKey {
          NoRowsWithNewKey(init, key, k);
        }
      }
    }
  }

  /** A key the record does not hold yet belongs to no row seen so far. */
  lemma NoRowsWithNewKey<T(!new)>(data: seq<Entry<T>>, key: T -> string, k: string)
    requires k !in GroupRows(data, key).byKey
    ensures Filter(data, WithKey(key, k)) == []
  {
    GroupOrder(data, key);
    var keys := RowKeys(data, key);
    assert k !in keys;
    forall i | 0 <= i < |data|
      ensures !WithKey(key, k)(data[i])
    {
      assert keys[i] == key(data[i].fields);
    }
    FilterNone(data, WithKey(key, k));
  }

  lemma GroupRowsShape<T(!new)>(data: seq<Entry<T>>, key: T -> string)
    ensures var g := GroupRows(data, key);
            g.order == Dedupe(RowKeys(data, key))
            && (forall k :: k in g.order <==> k in g.byKey)
            && forall k :: k in g.byKey ==>
                 k in RowKeys(data, key)
                 && g.byKey[k].fields == data[FirstIndex(RowKeys(data, key), k)].fields
                 && g.byKey[k].amount == SumBy(Filter(data, WithKey(key, k)), AmountOf)
  {
    GroupOrder(data, key);
    GroupFields(data, key);
    GroupAmounts(data, key);
  }

  /** Updating the entry of a key listed once changes the sum of the values by the difference. */
  lemma {:induction false} ValuesSet<T>(order: seq<string>, byKey: map<string, Entry<T>>, k: string, e: Entry<T>)
    requires NoDuplicates(order) && forall k' :: k' in order ==> k' in byKey
    ensures SumBy(Values(order, byKey[k := e]), AmountOf)
         == SumBy(Values(order, byKey), AmountOf) + (if k in order then e.amount - byKey[k].amount else 0.0)
  {
    if order != [] {
      var init := order[..|order| - 1];
      var last := order[|order| - 1];
      ValuesSet(init, byKey, k, e);
      SumBySnoc(Values(init, byKey[k := e]), byKey[k := e][last], AmountOf);
      SumBySnoc(Values(init, byKey), byKey[last], AmountOf);
      assert k == last ==> k !in init;
    }
  }

  /** groupByAndSum as a value. */
  function GroupSum<T(!new)>(data: seq<Entry<T>>, key: T -> string): seq<Entry<T>> {
    var g := GroupRows(data, key);
    Values(g.order, g.byKey)
  }

  /** One step adds the row's amount to the sum of the values. */
  lemma AddRowSum<T>(g: Grouped<T>, row: Entry<T>, key: T -> string)
    requires NoDuplicates(g.order) && forall k :: k in g.order <==> k in g.byKey
    ensures SumBy(Values(AddRow(g, row, key).order, AddRow(g, row, key).byKey), AmountOf)
         == SumBy(Values(g.order, g.byKey), AmountOf) + row.amount
  {
    var k := key(row.fields);
    if k in g.byKey {
      ValuesSet(g.order, g.byKey, k, g.byKey[k].(amount := g.byKey[k].amount + row.amount));
    } else {
      ValuesSet(g.order, g.byKey, k, row);
      SumBySnoc(Values(g.order, g.byKey[k := row]), row, AmountOf);
      ValuesSnoc(g.order, k, g.byKey[k := row]);
    }
  }

  /** Conservation: the groups' amounts add up to the rows' amounts. */
  lemma {:induction false} GroupSumConserves<T(!new)>(data: seq<Entry<T>>, key: T -> string)
    ensures SumBy(GroupSum(data, key), AmountOf) == SumBy(data, AmountOf)
  {
    if data != [] {
      var init := data[..|data| - 1];
      var row := data[|data| - 1];
      GroupSumConserves(init, key);
      GroupOrder(init, key);
      AddRowSum(GroupRows(init, key), row, key);
      SumBySnoc(init, row, AmountOf);
      LastSplit(data);
    }
  }

  lemma LastSplit<T>(xs: seq<T>)
    requires xs != []
    ensures xs == xs[..|xs| - 1] + [xs[|xs| - 1]]
  {
  }

  /** The result of groupByAndSum: one entry per distinct key, in order of first appearance,
      with the first row's fields and the sum of the amounts of the rows with that key. */
  lemma GroupSumShape<T(!new)>(data: seq<Entry<T>>, key: T -> string)
    ensures var keys := Dedupe(RowKeys(data, key));
            var r := GroupSum(data, key);
            |r| == |keys|
            && forall i :: 0 <= i < |r| ==>
                 key(r[i].fields) == keys[i]
                 && r[i].fields == data[FirstIndex(RowKeys(data, key), keys[i])].fields
                 && r[i].amount == SumBy(Filter(data, WithKey(key, keys[i])), AmountOf)
  {
    GroupRowsShape(data, key);
    var g := GroupRows(data, key);
    ValuesAt(g.order, g.byKey);
    var keys := RowKeys(data, key);
    var r := GroupSum(data, key);
    forall i | 0 <= i < |r|
      ensures key(r[i].fields) == g.order[i]
      ensures r[i].fields == data[FirstIndex(keys, g.order[i])].fields
      ensures r[i].amount == SumBy(Filter(data, WithKey(key, g.order[i])), AmountOf)
    {
      var k := g.order[i];
      assert r[i] == g.byKey[k];
      var j := FirstIndex(keys, k);
      assert keys[j] == key(data[j].fields);
    }
  }

  /** groupByAndSum: the loop over the rows fills the record, then its values are returned. The
      rows are copied (`{ ...row }`), so the input is left as it is. */
  method GroupByAndSum<T(!new)>(data: seq<Entry<T>>, key: T -> string) returns (result: seq<Entry<T>>)
    ensures result == GroupSum(data, key)
  {
    var order: seq<string> := [];
    var grouped: map<string, Entry<T>> := map[];
    for i := 0 to |data|
      invariant Grouped(order, grouped) == GroupRows(data[..i], key)
    {
      var row := data[i];
      var k := key(row.fields);
      if k !in grouped {
        grouped := grouped[k := row];
        order := order + [k];
      } else {
        grouped := grouped[k := grouped[k].(amount := grouped[k].amount + row.amount)];
      }
      assert data[..i + 1][..i] == data[..i];
    }
    assert data[..|data|] == data;
    GroupRowsShape(data, key);
    result := Values(order, grouped);
  }

  // ---------------------------------------------------------------------------------------
  // businessDaysBetween and the daily split

  /** Days are numbered; `next` is the calendar's next business day (`plusBusiness`). */
  type Day = int

  /** The days from `start`, then each next business day, while not after `end`. */
  function BusinessDays(next: Day -> Day, start: Day, end: Day): seq<Day>
    requires forall d :: next(d) > d
    decreases end - start
  {
    if start > end then [] else [start] + BusinessDays(next, next(start), end)
  }

  /** The list is empty exactly when start is after end; otherwise it begins with start itself
      (a business day or not), each day is the next business day of the one before, all are
      within [start, end], and the day after the last one is past the end. */
  lemma {:induction false} BusinessDaysShape(next: Day -> Day, start: Day, end: Day)
    requires forall d :: next(d) > d
    ensures var days := BusinessDays(next, start, end);
            (days == [] <==> start > end)
            && (days != [] ==> days[0] == start && next(days[|days| - 1]) > end)
            && (forall i :: 0 <= i < |days| ==> start <= days[i] <= end)
            && forall i :: 0 <= i < |days| - 1 ==> days[i + 1] == next(days[i])
    decreases end - start
  {
    if start <= end {
      BusinessDaysShape(next, next(start), end);
    }
  }

  /** businessDaysBetween: the loop that pushes the days. */
  method BusinessDaysBetween(next: Day -> Day, start: Day, end: Day) returns (days: seq<Day>)
    requires forall d :: next(d) > d
    ensures days == BusinessDays(next, start, end)
  {
    days := [];
    var day := start;
    while day <= end
      invariant days + BusinessDays(next, day, end) == BusinessDays(next, start, end)
      decreases end - day
    {
      days := days + [day];
      day := next(day);
    }
  }

  /** The fields of a booking after the first grouping, and of a daily entry after the split. */
  datatype Booking = Booking(res: int, start: Day, end: Day)
  datatype DayKey = DayKey(res: int, date: Day)

  function DailyEntry(res: int, work: real): Day -> Entry<DayKey> {
    (d: Day) => Entry(DayKey(res, d), work)
  }

  /** One booking spread equally over its business days: none when it has none. */
  function SplitBooking(next: Day -> Day, b: Entry<Booking>): seq<Entry<DayKey>>
    requires forall d :: next(d) > d
  {
    var days := BusinessDays(next, b.fields.start, b.fields.end);
    if days == [] then [] else MapSeq(DailyEntry(b.fields.res, b.amount / |days| as real), days)
  }

  /** The `flatMap` over the grouped bookings. */
  function DailyEntries(next: Day -> Day, bookings: seq<Entry<Booking>>): seq<Entry<DayKey>>
    requires forall d :: next(d) > d
  {
    if bookings == [] then [] else SplitBooking(next, bookings[0]) + DailyEntries(next, bookings[1..])
  }

  /** What a booking contributes to the daily entries: its work, or nothing without business days. */
  function Booked(next: Day -> Day): Entry<Booking> -> real
    requires forall d :: next(d) > d
  {
    (b: Entry<Booking>) requires forall d :: next(d) > d =>
      if BusinessDays(next, b.fields.start, b.fields.end) == [] then 0.0 else b.amount
  }

  lemma {:induction false} SumOfEqualShares(res: int, w: real, days: seq<Day>)
    ensures SumBy(MapSeq(DailyEntry(res, w), days), AmountOf) == w * |days| as real
  {
    if days != [] {
      SumOfEqualShares(res, w, days[1..]);
      Distribute(w, |days| - 1);
    }
  }

  lemma SharesAddUp(x: real, n: nat)
    requires n > 0
    ensures x / n as real * n as real == x
  {
  }

  /** A booking's daily entries are on its business days, each with an equal share, and they
      add up to its work. */
  lemma SplitConserves(next: Day -> Day, b: Entry<Booking>)
    requires forall d :: next(d) > d
    ensures var days := BusinessDays(next, b.fields.start, b.fields.end);
            var split := SplitBooking(next, b);
            |split| == |days|
            && (forall i :: 0 <= i < |split| ==>
                  split[i] == Entry(DayKey(b.fields.res, days[i]), b.amount / |days| as real))
            && SumBy(split, AmountOf) == Booked(next)(b)
  {
    var days := BusinessDays(next, b.fields.start, b.fields.end);
    if days != [] {
      var w := b.amount / |days| as real;
      SumOfEqualShares(b.fields.res, w, days);
      SharesAddUp(b.amount, |days|);
      forall i | 0 <= i < |days|
        ensures SplitBooking(next, b)[i] == Entry(DayKey(b.fields.res, days[i]), w)
      {
        MapSeqAt(DailyEntry(b.fields.res, w), days, i);
      }
    }
  }

  /** Conservation of the split: the daily entries add up to the work of the bookings that have
      business days. */
  lemma {:induction false} DailyConserves(next: Day -> Day, bookings: seq<Entry<Booking>>)
    requires forall d :: next(d) > d
    ensures SumBy(DailyEntries(next, bookings), AmountOf) == SumBy(bookings, Booked(next))
  {
    if bookings != [] {
      DailyConserves(next, bookings[1..]);
      SplitConserves(next, bookings[0]);
      SumByAppend(SplitBooking(next, bookings[0]), DailyEntries(next, bookings[1..]), AmountOf);
    }
  }

  // ---------------------------------------------------------------------------------------
  // The carry-forward rounding to hours

  /** `Math.round`: the nearest integer, halves rounded up. */
  function Round(x: real): int {
    (x + 0.5).Floor
  }

  lemma RoundBounds(x: real)
    ensures -0.5 < Round(x) as real - x <= 0.5
  {
  }

  /** The rounded values of one resource's days, in minutes in and hours out, and the
      remainder carried out of the last one. */
  datatype Carry = Carry(rounded: seq<real>, remainder: real)

  function CarryRound(ws: seq<real>): (c: Carry)
    ensures |c.rounded| == |ws|
  {
    if ws == [] then Carry([], 0.0)
    else
      var c := CarryRound(ws[..|ws| - 1]);
      var adjusted := ws[|ws| - 1] - c.remainder;
      var r := Round(adjusted / 60.0);
      Carry(c.rounded + [r as real], r as real * 60.0 - adjusted)
  }

  function Self(x: real): real {
    x
  }

  /** Every value becomes a whole number of hours; the remainder stays within (-30, 30]
      minutes; and the hours, in minutes, exceed the minutes worked by exactly the remainder. */
  lemma {:induction false} CarryRoundSound(ws: seq<real>)
    ensures var c := CarryRound(ws);
            (forall i :: 0 <= i < |ws| ==> c.rounded[i] == c.rounded[i].Floor as real)
            && (ws != [] ==> -30.0 < c.remainder <= 30.0)
            && 60.0 * SumBy(c.rounded, Self) - SumBy(ws, Self) == c.remainder
  {
    if ws != [] {
      var init := ws[..|ws| - 1];
      var c := CarryRound(init);
      CarryRoundSound(init);
      var adjusted := ws[|ws| - 1] - c.remainder;
      RoundBounds(adjusted / 60.0);
      SumBySnoc(c.rounded, Round(adjusted / 60.0) as real, Self);
      SumBySnoc(init, ws[|ws| - 1], Self);
      assert ws == init + [ws[|ws| - 1]];
    }
  }

  lemma CarryRoundSnoc(ws: seq<real>, i: nat)
    requires i < |ws|
    ensures var c := CarryRound(ws[..i]);
            var adjusted := ws[i] - c.remainder;
            CarryRound(ws[..i + 1]) == Carry(c.rounded + [Round(adjusted / 60.0) as real], Round(adjusted / 60.0) as real * 60.0 - adjusted)
  {
    assert ws[..i + 1][..i] == ws[..i];
  }

  /** The loop over one resource's rows: each row's work is overwritten with its rounded
      value while the remainder is carried to the next row. */
  method CarryForward(work: array<real>) returns (remainder: real)
    modifies work
    ensures work[..] == CarryRound(old(work[..])).rounded
    ensures remainder == CarryRound(old(work[..])).remainder
  {
    ghost var ws := work[..];
    remainder := 0.0;
    for i := 0 to work.Length
      invariant work[i..] == ws[i..]
      invariant work[..i] == CarryRound(ws[..i]).rounded
      invariant remainder == CarryRound(ws[..i]).remainder
    {
      CarryRoundSnoc(ws, i);
      assert work[i] == ws[i] by { assert work[i..][0] == ws[i..][0]; }
      ghost var done := work[..i];
      var adjusted := work[i] - remainder;
      var rounded := Round(adjusted / 60.0);
      remainder := rounded as real * 60.0 - adjusted;
      work[i] := rounded as real;
      assert work[..i] == done;
      assert work[..i + 1] == done + [rounded as real];
      assert work[i + 1..] == ws[i + 1..];
    }
    assert ws[..work.Length] == ws;
  }

  // ---------------------------------------------------------------------------------------
  // The weekly pivot

  /** The fields of a weekly shift: the resource and the start of its week. */
  datatype ResWeek = ResWeek(res: int, week: int)

  /** The weeks seen, once each, in ascending order (`[...new Set(wks)].sort((a, b) => a - b)`). */
  function Weeks(seen: seq<int>): seq<int> {
    SortBy(Dedupe(seen), WeekKey)
  }

  function WeekKey(w: int): SortKey {
    NumberKey(w as real)
  }

  lemma WeeksAscending(seen: seq<int>)
    ensures var wks := Weeks(seen);
            (forall w :: w in wks <==> w in seen)
            && forall i, j :: 0 <= i < j < |wks| ==> wks[i] < wks[j]
  {
    var wks := Weeks(seen);
    SortByFacts(Dedupe(seen), WeekKey);
    forall i, j | 0 <= i < j < |wks| ensures wks[i] < wks[j] {
      assert KeyLe(WeekKey(wks[i]), WeekKey(wks[j]));
    }
  }

  /** `wks.map(w => rs.map(r => 0))`. */
  function Zeros(rows: nat, cols: nat): (g: seq<seq<real>>)
    ensures |g| == rows && forall i :: 0 <= i < rows ==> g[i] == Zeros1(cols)
  {
    if rows == 0 then [] else Zeros(rows - 1, cols) + [Zeros1(cols)]
  }

  function Zeros1(cols: nat): (r: seq<real>)
    ensures |r| == cols && forall j :: 0 <= j < cols ==> r[j] == 0.0
  {
    if cols == 0 then [] else Zeros1(cols - 1) + [0.0]
  }

  predicate Shaped(g: seq<seq<real>>, rows: nat, cols: nat) {
    |g| == rows && forall i :: 0 <= i < rows ==> |g[i]| == cols
  }

  /** One write `shiftsPivot[wks.indexOf(week)][rs.indexOf(res)] = work`: an unknown resource
      gives index -1, which writes no cell. */
  function Place(g: seq<seq<real>>, wks: seq<int>, rs: seq<int>, e: Entry<ResWeek>): (h: seq<seq<real>>)
    requires Shaped(g, |wks|, |rs|)
    ensures Shaped(h, |wks|, |rs|)
  {
    if e.fields.week in wks && e.fields.res in rs then
      var i := FirstIndex(wks, e.fields.week);
      g[i := g[i][FirstIndex(rs, e.fields.res) := e.amount]]
    else g
  }

  /** The grid after all the writes, in order. */
  function Grid(wks: seq<int>, rs: seq<int>, shifts: seq<Entry<ResWeek>>): (g: seq<seq<real>>)
    ensures Shaped(g, |wks|, |rs|)
  {
    if shifts == [] then Zeros(|wks|, |rs|)
    else Place(Grid(wks, rs, shifts[..|shifts| - 1]), wks, rs, shifts[|shifts| - 1])
  }

  /** The amount of the last shift of a week and a resource, 0 when there is none. */
  function LastFor(shifts: seq<Entry<ResWeek>>, week: int, res: int): real {
    if shifts == [] then 0.0
    else if shifts[|shifts| - 1].fields == ResWeek(res, week) then shifts[|shifts| - 1].amount
    else LastFor(shifts[..|shifts| - 1], week, res)
  }

  /** A cell holds the last shift of its week and resource; a column of a resource listed
      twice is written only at its first place. */
  lemma {:induction false} GridCell(wks: seq<int>, rs: seq<int>, shifts: seq<Entry<ResWeek>>, i: nat, j: nat)
    requires i < |wks| && j < |rs|
    ensures Grid(wks, rs, shifts)[i][j]
         == if i == FirstIndex(wks, wks[i]) && j == FirstIndex(rs, rs[j]) then LastFor(shifts, wks[i], rs[j]) else 0.0
  {
    if shifts != [] {
      GridCell(wks, rs, shifts[..|shifts| - 1], i, j);
    }
  }

  function Column(j: nat): seq<real> -> real {
    (row: seq<real>) => if j < |row| then row[j] else 0.0
  }

  /** `sum(shiftsPivot.map(r => r[j]))`. */
  function ColumnSum(g: seq<seq<real>>, j: nat): real {
    SumBy(g, Column(j))
  }

  /** The totals row: one column sum per resource. */
  function Totals(g: seq<seq<real>>, n: nat): (t: seq<real>)
    ensures |t| == n
  {
    if n == 0 then [] else Totals(g, n - 1) + [ColumnSum(g, n - 1)]
  }

  function RowSum(row: seq<real>): real {
    SumBy(row, Self)
  }

  function WithSum(row: seq<real>): seq<real> {
    row + [RowSum(row)]
  }

  /** The pivot: the weeks' rows and the totals row, each followed by its sum. */
  function Pivot(wks: seq<int>, rs: seq<int>, shifts: seq<Entry<ResWeek>>): seq<seq<real>> {
    var g := Grid(wks, rs, shifts);
    MapSeq(WithSum, g + [Totals(g, |rs|)])
  }

  /** The pivot's writes, the loop over the resources for the totals, and the row sums. */
  method BuildPivot(wks: seq<int>, rs: seq<int>, shifts: seq<Entry<ResWeek>>) returns (pivot: seq<seq<real>>)
    ensures pivot == Pivot(wks, rs, shifts)
  {
    var grid := Zeros(|wks|, |rs|);
    for k := 0 to |shifts|
      invariant grid == Grid(wks, rs, shifts[..k])
    {
      assert shifts[..k + 1][..k] == shifts[..k];
      var e := shifts[k];
      if e.fields.week in wks && e.fields.res in rs {
        var i := FirstIndex(wks, e.fields.week);
        var j := FirstIndex(rs, e.fields.res);
        grid := grid[i := grid[i][j := e.amount]];
      }
    }
    assert shifts[..|shifts|] == shifts;
    var totals := [];
    for j := 0 to |rs|
      invariant totals == Totals(grid, j)
    {
      totals := totals + [ColumnSum(grid, j)];
    }
    pivot := MapSeq(WithSum, grid + [totals]);
  }

  /** Summing a grid by columns or by rows gives the same total. */
  lemma {:induction false} SumByColumns(g: seq<seq<real>>, n: nat)
    requires forall i :: 0 <= i < |g| ==> |g[i]| == n
    ensures RowSum(Totals(g, n)) == SumBy(g, RowSumOf)
  {
    if g != [] {
      var init := g[..|g| - 1];
      var row := g[|g| - 1];
      SumByColumns(init, n);
      assert g == init + [row];
      TotalsSnoc(init, row, n);
      assert row[..n] == row;
      SumBySnoc(init, row, RowSumOf);
    } else {
      TotalsOfNone(n);
    }
  }

  function RowSumOf(row: seq<real>): real {
    RowSum(row)
  }

  lemma {:induction false} TotalsOfNone(n: nat)
    ensures RowSum(Totals([], n)) == 0.0
  {
    if n > 0 {
      TotalsOfNone(n - 1);
      SumBySnoc(Totals([], n - 1), 0.0, Self);
    }
  }

  /** Adding a row to the grid adds its cells to the sum of the totals row. */
  lemma {:induction false} TotalsSnoc(g: seq<seq<real>>, row: seq<real>, n: nat)
    requires |row| >= n
    ensures RowSum(Totals(g + [row], n)) == RowSum(Totals(g, n)) + RowSum(row[..n])
  {
    if n > 0 {
      TotalsSnoc(g, row, n - 1);
      SumBySnoc(g, row, Column(n - 1));
      SumBySnoc(Totals(g + [row], n - 1), ColumnSum(g + [row], n - 1), Self);
      SumBySnoc(Totals(g, n - 1), ColumnSum(g, n - 1), Self);
      SumBySnoc(row[..n - 1], row[n - 1], Self);
      assert row[..n] == row[..n - 1] + [row[n - 1]];
    }
  }

  /** The pivot has a row per week and the totals row, each with a cell per resource and the
      row's sum; the totals row holds the column sums, and its sum, the grand total, is the
      sum of the weeks' totals. */
  lemma PivotTotals(wks: seq<int>, rs: seq<int>, shifts: seq<Entry<ResWeek>>)
    ensures var g := Grid(wks, rs, shifts);
            var p := Pivot(wks, rs, shifts);
            |p| == |wks| + 1
            && (forall i :: 0 <= i < |p| ==> |p[i]| == |rs| + 1 && p[i][|rs|] == RowSum(p[i][..|rs|]))
            && (forall j :: 0 <= j < |rs| ==> p[|wks|][j] == ColumnSum(g, j))
            && p[|wks|][|rs|] == SumBy(g, RowSumOf)
  {
    var g := Grid(wks, rs, shifts);
    var rows := g + [Totals(g, |rs|)];
    var p := Pivot(wks, rs, shifts);
    forall i | 0 <= i < |p|
      ensures p[i] == WithSum(rows[i])
    {
      MapSeqAt(WithSum, rows, i);
    }
    forall i | 0 <= i < |p|
      ensures |p[i]| == |rs| + 1 && p[i][|rs|] == RowSum(p[i][..|rs|])
    {
      assert p[i][..|rs|] == rows[i];
    }
    forall j | 0 <= j < |rs| ensures p[|wks|][j] == ColumnSum(g, j) {
      TotalsAt(g, |rs|, j);
    }
    SumByColumns(g, |rs|);
  }

  lemma {:induction false} TotalsAt(g: seq<seq<real>>, n: nat, j: nat)
    requires j < n
    ensures Totals(g, n)[j] == ColumnSum(g, j)
  {
    if j < n - 1 {
      TotalsAt(g, n - 1, j);
    }
  }

  // ---------------------------------------------------------------------------------------
  // One resource's rounded days and weekly shifts

  function OfRes(res: int): Entry<DayKey> -> bool {
    (e: Entry<DayKey>) => e.fields.res == res
  }

  /** The rows of one resource after the rounding loop: each row's work is replaced by its
      whole hours, the other fields are kept. */
  function RoundedRows(rows: seq<Entry<DayKey>>): (r: seq<Entry<DayKey>>)
    ensures |r| == |rows|
  {
    var c := CarryRound(MapSeq(AmountOf, rows));
    seq(|rows|, i requires 0 <= i < |rows| => rows[i].(amount := c.rounded[i]))
  }

  /** The rounded rows keep their days and hold whole hours, and their hours in minutes differ
      from the minutes worked by more than -30 and at most +30. */
  lemma RoundedRowsSound(rows: seq<Entry<DayKey>>)
    ensures var r := RoundedRows(rows);
            (forall i :: 0 <= i < |r| ==> r[i].fields == rows[i].fields && r[i].amount == r[i].amount.Floor as real)
            && (rows != [] ==> -30.0 < 60.0 * SumBy(r, AmountOf) - SumBy(rows, AmountOf) <= 30.0)
  {
    var ws := MapSeq(AmountOf, rows);
    var c := CarryRound(ws);
    var r := RoundedRows(rows);
    CarryRoundSound(ws);
    assert MapSeq(AmountOf, r) == c.rounded by {
      forall i | 0 <= i < |r| ensures MapSeq(AmountOf, r)[i] == c.rounded[i] {
        MapSeqAt(AmountOf, r, i);
      }
    }
    SumByMap(AmountOf, r, Self, AmountOf);
    SumByMap(AmountOf, rows, Self, AmountOf);
  }

  /** `{ res, week: the start of the day's week, work: work / 8 }`. */
  function WeekEntry(weekOf: Day -> int): Entry<DayKey> -> Entry<ResWeek> {
    (e: Entry<DayKey>) => Entry(ResWeek(e.fields.res, weekOf(e.fields.date)), e.amount / 8.0)
  }

  function WeekOfRow(weekOf: Day -> int): Entry<DayKey> -> int {
    (e: Entry<DayKey>) => weekOf(e.fields.date)
  }

  /** One resource's shifts: its rows by week, summed per resource and week. */
  function WeekShifts(weekOf: Day -> int, key: ResWeek -> string, rows: seq<Entry<DayKey>>): seq<Entry<ResWeek>> {
    GroupSum(MapSeq(WeekEntry(weekOf), rows), key)
  }

  function Eighth(e: Entry<DayKey>): real {
    e.amount / 8.0
  }

  lemma {:induction false} SumByEighth(rows: seq<Entry<DayKey>>)
    ensures SumBy(rows, Eighth) == SumBy(rows, AmountOf) / 8.0
  {
    if rows != [] {
      SumByEighth(rows[1..]);
    }
  }

  /** The shifts hold the resource's hours in eight-hour days, and the week of every shift is
      among the weeks pushed while mapping the rows, so it has a row in the pivot. */
  lemma WeekShiftsSound(weekOf: Day -> int, key: ResWeek -> string, rows: seq<Entry<DayKey>>)
    ensures var shifts := WeekShifts(weekOf, key, rows);
            SumBy(shifts, AmountOf) == SumBy(rows, AmountOf) / 8.0
            && forall i :: 0 <= i < |shifts| ==> shifts[i].fields.week in MapSeq(WeekOfRow(weekOf), rows)
  {
    var data := MapSeq(WeekEntry(weekOf), rows);
    var shifts := GroupSum(data, key);
    GroupSumConserves(data, key);
    SumByMap(WeekEntry(weekOf), rows, AmountOf, Eighth);
    SumByEighth(rows);
    GroupSumShape(data, key);
    forall i | 0 <= i < |shifts| ensures shifts[i].fields.week in MapSeq(WeekOfRow(weekOf), rows) {
      var j := FirstIndex(RowKeys(data, key), key(shifts[i].fields));
      MapSeqAt(WeekEntry(weekOf), rows, j);
      MapSeqAt(WeekOfRow(weekOf), rows, j);
    }
  }

  // ---------------------------------------------------------------------------------------
  // The shift table

  /** A body row: its label cells, then its number cells. */
  datatype BodyRow = BodyRow(labels: seq<string>, values: seq<real>)

  function Width(row: BodyRow): nat {
    |row.labels| + |row.values|
  }

  /** `["Week", "Date", ...logons, "Total"]`. */
  function Head(logons: seq<string>): seq<string> {
    ["Week", "Date"] + logons + ["Total"]
  }

  /** The label cells of a row: the week (the ISO week and the date of its start, rendered by
      the parameters) or, for the pushed -1, "Total" and an empty cell. */
  function Labels(weekLabel: int -> string, weekDate: int -> string, w: int): seq<string> {
    if w == -1 then ["Total", ""] else [weekLabel(w), weekDate(w)]
  }

  /** The body as written: the pivot rows already end in their sum, and the row sum is
      appended again. */
  function ShiftRowsAsWritten(wks: seq<int>, rs: seq<int>, shifts: seq<Entry<ResWeek>>,
                              weekLabel: int -> string, weekDate: int -> string): (rows: seq<BodyRow>)
    ensures |rows| == |wks| + 1
  {
    var p := Pivot(wks, rs, shifts);
    var ws := wks + [-1];
    seq(|wks| + 1, i requires 0 <= i < |wks| + 1 => BodyRow(Labels(weekLabel, weekDate, ws[i]), p[i] + [RowSum(p[i])]))
  }

  /** As written, every body row has one cell more than the head, and its last cell is twice
      the row's total. */
  lemma ShiftRowsDoubled(wks: seq<int>, rs: seq<int>, shifts: seq<Entry<ResWeek>>, logons: seq<string>,
                         weekLabel: int -> string, weekDate: int -> string)
    requires |logons| == |rs|
    ensures var rows := ShiftRowsAsWritten(wks, rs, shifts, weekLabel, weekDate);
            forall i :: 0 <= i < |rows| ==>
              Width(rows[i]) == |Head(logons)| + 1
              && |rows[i].values| == |rs| + 2
              && rows[i].values[|rs| + 1] == 2.0 * RowSum(rows[i].values[..|rs|])
  {
    var p := Pivot(wks, rs, shifts);
    var rows := ShiftRowsAsWritten(wks, rs, shifts, weekLabel, weekDate);
    PivotTotals(wks, rs, shifts);
    forall i | 0 <= i < |rows|
      ensures |rows[i].values| == |rs| + 2
      ensures rows[i].values[|rs| + 1] == 2.0 * RowSum(rows[i].values[..|rs|])
    {
      var row := p[i];
      assert rows[i].values == row + [RowSum(row)];
      assert rows[i].values[..|rs|] == row[..|rs|];
      assert row == row[..|rs|] + [row[|rs|]];
      SumBySnoc(row[..|rs|], row[|rs|], Self);
    }
  }

  /** One resource with one week of one day's shift: the week's row reads 1, 1, 2 under the
      head Week, Date, the resource, Total. */
  lemma ShiftRowsDoubledExample(weekLabel: int -> string, weekDate: int -> string)
    ensures var rows := ShiftRowsAsWritten([7], [1], [Entry(ResWeek(1, 7), 1.0)], weekLabel, weekDate);
            rows[0].values == [1.0, 1.0, 2.0] && Width(rows[0]) == |Head(["alice"])| + 1
  {
    var shifts := [Entry(ResWeek(1, 7), 1.0)];
    var p := Pivot([7], [1], shifts);
    var rows := ShiftRowsAsWritten([7], [1], shifts, weekLabel, weekDate);
    PivotTotals([7], [1], shifts);
    GridCell([7], [1], shifts, 0, 0);
    assert shifts[..0] == [];
    MapSeqAt(WithSum, Grid([7], [1], shifts) + [Totals(Grid([7], [1], shifts), 1)], 0);
    var row := Grid([7], [1], shifts)[0];
    assert row == [1.0];
    assert RowSum(row) == 1.0 by {
      SumBySnoc([], 1.0, Self);
      assert [] + [1.0] == row;
    }
    assert p[0] == WithSum(row) == [1.0, 1.0];
    assert p[0][1..][1..] == [];
    assert RowSum(p[0]) == 2.0;
  }

  /** The body as intended: each pivot row with its sum once. */
  function ShiftRows(wks: seq<int>, rs: seq<int>, shifts: seq<Entry<ResWeek>>,
                     weekLabel: int -> string, weekDate: int -> string): (rows: seq<BodyRow>)
    ensures |rows| == |wks| + 1
  {
    var p := Pivot(wks, rs, shifts);
    var ws := wks + [-1];
    seq(|wks| + 1, i requires 0 <= i < |wks| + 1 => BodyRow(Labels(weekLabel, weekDate, ws[i]), p[i]))
  }

  /** Every row is as wide as the head and ends in its own total; a week's row is labelled by
      its week, the last row is the totals row, holding the column sums and the grand total. */
  lemma ShiftRowsSound(wks: seq<int>, rs: seq<int>, shifts: seq<Entry<ResWeek>>, logons: seq<string>,
                       weekLabel: int -> string, weekDate: int -> string)
    requires |logons| == |rs|
    ensures var rows := ShiftRows(wks, rs, shifts, weekLabel, weekDate);
            var g := Grid(wks, rs, shifts);
            (forall i :: 0 <= i < |rows| ==>
               Width(rows[i]) == |Head(logons)|
               && |rows[i].values| == |rs| + 1
               && rows[i].values[|rs|] == RowSum(rows[i].values[..|rs|]))
            && (forall i :: 0 <= i < |wks| && wks[i] != -1 ==> rows[i].labels == [weekLabel(wks[i]), weekDate(wks[i])])
            && rows[|wks|].labels == ["Total", ""]
            && (forall j :: 0 <= j < |rs| ==> rows[|wks|].values[j] == ColumnSum(g, j))
            && rows[|wks|].values[|rs|] == SumBy(g, RowSumOf)
  {
    PivotTotals(wks, rs, shifts);
  }

  // ---------------------------------------------------------------------------------------
  // processBookings

  /** A resource: its id and its logon, the column's title. */
  datatype Resource = Resource(id: int, logon: string)

  datatype ShiftTable = ShiftTable(head: seq<string>, body: seq<BodyRow>)

  function Flatten<T>(xss: seq<seq<T>>): seq<T> {
    if xss == [] then [] else Flatten(xss[..|xss| - 1]) + xss[|xss| - 1]
  }

  function ResOf(e: Entry<DayKey>): int {
    e.fields.res
  }

  function IdOf(r: Resource): int {
    r.id
  }

  function LogonOf(r: Resource): string {
    r.logon
  }

  /** The rounded daily rows of each resource, in order of the resources' first appearance:
      bookings grouped by resource and dates, split over their business days, grouped by
      resource and day, and rounded per resource. */
  function ResourceDays(next: Day -> Day, bookingKey: Booking -> string, dayKey: DayKey -> string,
                        bookings: seq<Entry<Booking>>): seq<seq<Entry<DayKey>>>
    requires forall d :: next(d) > d
  {
    var grouped := GroupSum(bookings, bookingKey);
    var daily := GroupSum(DailyEntries(next, grouped), dayKey);
    MapSeq((res: int) => RoundedRows(Filter(daily, OfRes(res))), Dedupe(MapSeq(ResOf, daily)))
  }

  /** Every resource's shifts per week, one resource after the other. */
  function BookingShifts(weekOf: Day -> int, shiftKey: ResWeek -> string, groups: seq<seq<Entry<DayKey>>>): seq<Entry<ResWeek>> {
    Flatten(MapSeq((g: seq<Entry<DayKey>>) => WeekShifts(weekOf, shiftKey, g), groups))
  }

  /** The week of every rounded day, in the order `wks.push` sees them. */
  function DayWeeks(weekOf: Day -> int, groups: seq<seq<Entry<DayKey>>>): seq<int> {
    Flatten(MapSeq((g: seq<Entry<DayKey>>) => MapSeq(WeekOfRow(weekOf), g), groups))
  }

  /** The whole report: the rounded days of each resource, gathered per resource and week, and
      laid out with a row per week and a column per resource. The keys that join fields into
      strings, the calendar and the date rendering are parameters. */
  function ProcessBookings(next: Day -> Day, weekOf: Day -> int,
                           bookingKey: Booking -> string, dayKey: DayKey -> string, shiftKey: ResWeek -> string,
                           weekLabel: int -> string, weekDate: int -> string,
                           bookings: seq<Entry<Booking>>, resources: seq<Resource>): (t: ShiftTable)
    requires forall d :: next(d) > d
  {
    var groups := ResourceDays(next, bookingKey, dayKey, bookings);
    ShiftTable(Head(MapSeq(LogonOf, resources)),
               ShiftRows(Weeks(DayWeeks(weekOf, groups)), MapSeq(IdOf, resources),
                         BookingShifts(weekOf, shiftKey, groups), weekLabel, weekDate))
  }

  /** The table has a row per week that holds a booked day, the weeks in strictly ascending
      order, each row labelled by its week, and then the totals row, which holds the column
      sums of the week rows; every row is as wide as the head and ends in its total. */
  lemma ProcessBookingsShape(next: Day -> Day, weekOf: Day -> int,
                             bookingKey: Booking -> string, dayKey: DayKey -> string, shiftKey: ResWeek -> string,
                             weekLabel: int -> string, weekDate: int -> string,
                             bookings: seq<Entry<Booking>>, resources: seq<Resource>)
    requires forall d :: next(d) > d
    ensures var t := ProcessBookings(next, weekOf, bookingKey, dayKey, shiftKey, weekLabel, weekDate, bookings, resources);
            var groups := ResourceDays(next, bookingKey, dayKey, bookings);
            var wks := Weeks(DayWeeks(weekOf, groups));
            var n := |resources|;
            |t.body| == |wks| + 1
            && (forall i :: 0 <= i < |t.body| ==>
                  Width(t.body[i]) == |t.head| && |t.body[i].values| == n + 1
                  && t.body[i].values[n] == RowSum(t.body[i].values[..n]))
            && (forall w :: w in wks <==> w in DayWeeks(weekOf, groups))
            && (forall i, j :: 0 <= i < j < |wks| ==> wks[i] < wks[j])
            && (forall i :: 0 <= i < |wks| && wks[i] != -1 ==> t.body[i].labels == [weekLabel(wks[i]), weekDate(wks[i])])
            && t.body[|wks|].labels == ["Total", ""]
            && (forall j :: 0 <= j < n ==>
                  t.body[|wks|].values[j]
                  == ColumnSum(Grid(wks, MapSeq(IdOf, resources), BookingShifts(weekOf, shiftKey, groups)), j))
  {
    var t := ProcessBookings(next, weekOf, bookingKey, dayKey, shiftKey, weekLabel, weekDate, bookings, resources);
    var groups := ResourceDays(next, bookingKey, dayKey, bookings);
    var wks := Weeks(DayWeeks(weekOf, groups));
    var ids := MapSeq(IdOf, resources);
    var logons := MapSeq(LogonOf, resources);
    var shifts := BookingShifts(weekOf, shiftKey, groups);
    assert t == ShiftTable(Head(logons), ShiftRows(wks, ids, shifts, weekLabel, weekDate));
    assert |ids| == |logons| == |resources|;
    WeeksAscending(DayWeeks(weekOf, groups));
    ShiftRowsSound(wks, ids, shifts, logons, weekLabel, weekDate);
  }
}
