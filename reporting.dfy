/**
 * The monthly revenue report (src/reporting.ts). Every project page with an execution period,
 * a budget in person-days (PD) and an average PD rate has its revenue (budget times rate) and
 * its budget spread evenly over the Monday-to-Friday days of that period, and the shares are
 * bucketed by month (`yyyy-MM`). The months that overlap the date filter are displayed, per
 * project or per group of projects, beside the revenue and PD totals of each month.
 */
module Reporting {
  import opened Js

  /** A calendar day as a day number: the day after `d` is `d + 1`. */
  type Day = int

  /** The date library the report works with (Luxon, reached through Dataview). */
  datatype Calendar = Calendar(
    parse: string -> Option<Day>,  // dv.date: None when the text is not a date
    weekday: Day -> int,           // 1 = Monday ... 7 = Sunday
    monthKey: Day -> string,       // toFormat('yyyy-MM')
    dayText: Day -> string,        // toFormat('yyyy-MM-dd')
    monthStart: string -> Day,     // the first day of the month a key names
    monthEnd: string -> Day)       // the last day of that month (endOf('month'))

  /** A frontmatter value, or what a grouping function returns, as far as grouping looks at it:
      an object carries its `display` ("" when it has none) and its String() form, a number or
      boolean its String() form. */
  datatype Value = Undefined | Null | Str(s: string) | Obj(display: string, shown: string) | Other(shown: string)

  datatype Link = Link(path: string, display: string)

  /** The metadata of one project page. A date is None when it is missing or invalid, an
      amount when it is not a number; the ids are their truthiness. */
  datatype Page = Page(
    link: Link,
    start: Option<Day>,
    end: Option<Day>,
    budget: Option<real>,
    rate: Option<real>,
    nessieId: bool,
    salesforceId: bool,
    fields: map<string, Value>)

  /** The `group` argument: a frontmatter field name or a function of the page. */
  datatype Grouping = Field(name: string) | Computed(f: Page -> Value)

  datatype Order = ByName | ByTotal | ByMonth

  /** A valid project: its link, its revenue per month (with the month keys in the order the
      breakdown object was filled), its whole revenue and its group value. */
  datatype Project = Project(name: Link, breakdown: map<string, real>, months: seq<string>, total: real, groupValue: Value)

  /** `dict[key] || 0`. */
  function Get(m: map<string, real>, key: string): real {
    if key in m then m[key] else 0.0
  }

  // ---------------------------------------------------------------------------------------
  // Working days

  predicate IsWorkday(cal: Calendar, d: Day) {
    1 <= cal.weekday(d) <= 5
  }

  /** The Monday-to-Friday days in [lo, hi]. */
  function Workdays(cal: Calendar, lo: Day, hi: Day): nat
    decreases hi - lo + 1
  {
    if hi < lo then 0 else Workdays(cal, lo, hi - 1) + (if IsWorkday(cal, hi) then 1 else 0)
  }

  /** The Monday-to-Friday days in [lo, hi] that fall in month `key`. */
  function WorkdaysIn(cal: Calendar, lo: Day, hi: Day, key: string): nat
    decreases hi - lo + 1
  {
    if hi < lo then 0
    else WorkdaysIn(cal, lo, hi - 1, key) + (if IsWorkday(cal, hi) && cal.monthKey(hi) == key then 1 else 0)
  }

  /** `acc` after `daily` has been added to the month of every working day in [lo, hi]. */
  function Spread(cal: Calendar, acc: map<string, real>, lo: Day, hi: Day, daily: real): map<string, real>
    decreases hi - lo + 1
  {
    if hi < lo then acc
    else
      var m := Spread(cal, acc, lo, hi - 1, daily);
      if IsWorkday(cal, hi) then m[cal.monthKey(hi) := Get(m, cal.monthKey(hi)) + daily] else m
  }

  /** `months` followed by the months of the working days in [lo, hi] it does not hold yet, in
      order of first appearance (the insertion order of a Set or of an object's keys). */
  function MonthsOf(cal: Calendar, months: seq<string>, lo: Day, hi: Day): seq<string>
    decreases hi - lo + 1
  {
    if hi < lo then months
    else
      var ms := MonthsOf(cal, months, lo, hi - 1);
      if IsWorkday(cal, hi) && cal.monthKey(hi) !in ms then ms + [cal.monthKey(hi)] else ms
  }

  /** `n` times `x`, added up one at a time. */
  function Repeat(x: real, n: nat): real {
    if n == 0 then 0.0 else Repeat(x, n - 1) + x
  }

  lemma {:induction false} RepeatIsProduct(x: real, n: nat)
    ensures Repeat(x, n) == x * n as real
  {
    if n > 0 {
      RepeatIsProduct(x, n - 1);
      Distribute(x, n - 1);
    }
  }

  /** Each month receives `daily` once for each of its working days in the range. */
  lemma {:induction false} SpreadAt(cal: Calendar, acc: map<string, real>, lo: Day, hi: Day, daily: real, key: string)
    ensures Get(Spread(cal, acc, lo, hi, daily), key) == Get(acc, key) + Repeat(daily, WorkdaysIn(cal, lo, hi, key))
    ensures key in Spread(cal, acc, lo, hi, daily) <==> key in acc || WorkdaysIn(cal, lo, hi, key) > 0
    decreases hi - lo + 1
  {
    if hi >= lo {
      SpreadAt(cal, acc, lo, hi - 1, daily, key);
    }
  }


  /** The month list only grows, stays free of duplicates, and gains exactly the months with a
      working day in the range. */
  lemma {:induction false} MonthsOfGrows(cal: Calendar, months: seq<string>, lo: Day, hi: Day)
    ensures |months| <= |MonthsOf(cal, months, lo, hi)|
    ensures MonthsOf(cal, months, lo, hi)[..|months|] == months
    ensures NoDuplicates(months) ==> NoDuplicates(MonthsOf(cal, months, lo, hi))
    ensures forall key :: key in MonthsOf(cal, months, lo, hi) <==> key in months || WorkdaysIn(cal, lo, hi, key) > 0
    decreases hi - lo + 1
  {
    if hi >= lo {
      MonthsOfGrows(cal, months, lo, hi - 1);
      var ms := MonthsOf(cal, months, lo, hi - 1);
      if IsWorkday(cal, hi) && cal.monthKey(hi) !in ms {
        assert (ms + [cal.monthKey(hi)])[..|months|] == ms[..|months|];
      }
    }
  }

  // ---------------------------------------------------------------------------------------
  // Sums over month keys

  /** The sum of `m` over the keys of `keys`. */
  function SumOver(keys: seq<string>, m: map<string, real>): real {
    if keys == [] then 0.0 else SumOver(keys[..|keys| - 1], m) + Get(m, keys[|keys| - 1])
  }

  /** Changing the value of a key the list does not hold leaves the sum as it is. */
  lemma {:induction false} SumOverElsewhere(keys: seq<string>, m: map<string, real>, key: string, v: real)
    requires key !in keys
    ensures SumOver(keys, m[key := v]) == SumOver(keys, m)
  {
    if keys != [] {
      SumOverElsewhere(keys[..|keys| - 1], m, key, v);
    }
  }

  /** Changing the value of a key the list holds once changes the sum by the difference. */
  lemma {:induction false} SumOverSet(keys: seq<string>, m: map<string, real>, key: string, v: real)
    requires NoDuplicates(keys) && key in keys
    ensures SumOver(keys, m[key := v]) == SumOver(keys, m) - Get(m, key) + v
  {
    var init := keys[..|keys| - 1];
    if keys[|keys| - 1] == key {
      assert key !in init;
      SumOverElsewhere(init, m, key, v);
    } else {
      assert key in init;
      SumOverSet(init, m, key, v);
    }
  }

  lemma {:induction false} SumOverEmpty(keys: seq<string>)
    ensures SumOver(keys, map[]) == 0.0
  {
    if keys != [] {
      SumOverEmpty(keys[..|keys| - 1]);
    }
  }

  lemma {:induction false} SumOverAppend(xs: seq<string>, ys: seq<string>, m: map<string, real>)
    ensures SumOver(xs + ys, m) == SumOver(xs, m) + SumOver(ys, m)
    decreases |ys|
  {
    if ys == [] {
      assert xs + ys == xs;
    } else {
      SumOverAppend(xs, ys[..|ys| - 1], m);
      assert (xs + ys)[..|xs + ys| - 1] == xs + ys[..|ys| - 1];
    }
  }

  /** Conservation of a spread: over the month list it extends, the sum grows by `daily` once
      for each working day of the range. */
  lemma {:induction false} SpreadAddsUp(cal: Calendar, acc: map<string, real>, months: seq<string>, lo: Day, hi: Day, daily: real)
    requires NoDuplicates(months) && forall key :: key in acc ==> key in months
    ensures SumOver(MonthsOf(cal, months, lo, hi), Spread(cal, acc, lo, hi, daily))
         == SumOver(months, acc) + Repeat(daily, Workdays(cal, lo, hi))
    decreases hi - lo + 1
  {
    if hi >= lo {
      var ms := MonthsOf(cal, months, lo, hi - 1);
      var m := Spread(cal, acc, lo, hi - 1, daily);
      SpreadAddsUp(cal, acc, months, lo, hi - 1, daily);
      if IsWorkday(cal, hi) {
        var key := cal.monthKey(hi);
        assert Workdays(cal, lo, hi) == Workdays(cal, lo, hi - 1) + 1;
        assert Spread(cal, acc, lo, hi, daily) == m[key := Get(m, key) + daily];
        assert MonthsOf(cal, months, lo, hi) == if key !in ms then ms + [key] else ms;
        SpreadInvariant(cal, acc, months, lo, hi - 1, daily);
        SpreadStep(ms, m, key, daily);
      }
    }
  }

  /** What a spread fills is in the month list that goes with it, and that list stays free of
      duplicates. */
  lemma SpreadInvariant(cal: Calendar, acc: map<string, real>, months: seq<string>, lo: Day, hi: Day, daily: real)
    requires NoDuplicates(months) && forall key :: key in acc ==> key in months
    ensures NoDuplicates(MonthsOf(cal, months, lo, hi))
    ensures forall key :: key in Spread(cal, acc, lo, hi, daily) ==> key in MonthsOf(cal, months, lo, hi)
  {
    MonthsOfGrows(cal, months, lo, hi);
    forall key | key in Spread(cal, acc, lo, hi, daily) ensures key in MonthsOf(cal, months, lo, hi) {
      SpreadAt(cal, acc, lo, hi, daily, key);
    }
  }

  /** One working day: adding `daily` to a month, and listing the month if it is new, adds
      `daily` to the sum. */
  lemma SpreadStep(ms: seq<string>, m: map<string, real>, key: string, daily: real)
    requires NoDuplicates(ms) && forall k :: k in m ==> k in ms
    ensures SumOver(if key !in ms then ms + [key] else ms, m[key := Get(m, key) + daily]) == SumOver(ms, m) + daily
  {
    if key in ms {
      SumOverSet(ms, m, key, Get(m, key) + daily);
    } else {
      SumOverElsewhere(ms, m, key, daily);
      assert (ms + [key])[..|ms|] == ms;
    }
  }

  /** What each of `n` working days receives of `amount`. */
  function Share(amount: real, n: nat): real
    requires n > 0
  {
    amount / n as real
  }

  /** The `n` shares of `amount` add up to `amount`. */
  lemma RepeatShare(amount: real, n: nat)
    requires n > 0
    ensures Repeat(Share(amount, n), n) == amount
  {
    RepeatIsProduct(Share(amount, n), n);
  }

  // ---------------------------------------------------------------------------------------
  // Scanning the project pages

  /** `page[group]` for a field name, `group(page)` for a function, null without grouping. */
  function GroupValue(group: Option<Grouping>, page: Page): Value {
    match group
    case None => Null
    case Some(Field(name)) => if name in page.fields then page.fields[name] else Undefined
    case Some(Computed(f)) => f(page)
  }

  /** Both dates valid and in order, budget and rate numbers. */
  predicate Usable(page: Page) {
    page.start.Some? && page.end.Some? && page.start.value <= page.end.value
    && page.budget.Some? && page.rate.Some?
  }

  /** A skipped page is reported unless it has no Nessie id and has a Salesforce id. */
  predicate Warns(page: Page) {
    !Usable(page) && (page.nessieId || !page.salesforceId)
  }

  /** A project's revenue: its budget in person-days times its average PD rate. */
  function Income(page: Page): real
    requires page.budget.Some? && page.rate.Some?
  {
    page.budget.value * page.rate.value
  }

  /** A page that becomes a project: usable, with at least one working day. */
  predicate Counted(cal: Calendar, page: Page) {
    Usable(page) && Workdays(cal, page.start.value, page.end.value) > 0
  }

  /** The state the loop over the pages builds: the projects, the revenue and PD totals per
      month, the months seen (in insertion order) and the links of the pages warned about. */
  datatype Scan = Scan(projects: seq<Project>, revenue: map<string, real>, pd: map<string, real>,
                       months: seq<string>, warnings: seq<Link>)

  /** One page of the loop. */
  function ScanPage(cal: Calendar, group: Option<Grouping>, s: Scan, page: Page): Scan {
    if !Usable(page) then
      (if Warns(page) then s.(warnings := s.warnings + [page.link]) else s)
    else
      var lo, hi := page.start.value, page.end.value;
      var n := Workdays(cal, lo, hi);
      if n == 0 then s
      else
        var total := Income(page);
        var daily := Share(total, n);
        var dailyPD := Share(page.budget.value, n);
        var project := Project(page.link, Spread(cal, map[], lo, hi, daily), MonthsOf(cal, [], lo, hi), total, GroupValue(group, page));
        Scan(s.projects + [project], Spread(cal, s.revenue, lo, hi, daily), Spread(cal, s.pd, lo, hi, dailyPD),
             MonthsOf(cal, s.months, lo, hi), s.warnings)
  }

  function ScanPages(cal: Calendar, group: Option<Grouping>, pages: seq<Page>): Scan {
    if pages == [] then Scan([], map[], map[], [], [])
    else ScanPage(cal, group, ScanPages(cal, group, pages[..|pages| - 1]), pages[|pages| - 1])
  }

  lemma ScanPagesSnoc(cal: Calendar, group: Option<Grouping>, pages: seq<Page>, i: nat)
    requires i < |pages|
    ensures ScanPages(cal, group, pages[..i + 1]) == ScanPage(cal, group, ScanPages(cal, group, pages[..i]), pages[i])
  {
    assert pages[..i + 1][..i] == pages[..i];
  }

  /** The first loop over the days of a project: its number of working days. */
  method CountWorkdays(cal: Calendar, start: Day, end: Day) returns (n: nat)
    requires start <= end
    ensures n == Workdays(cal, start, end)
  {
    n := 0;
    var day := start;
    while day <= end
      invariant start <= day <= end + 1
      invariant n == Workdays(cal, start, day - 1)
      decreases end - day
    {
      if 1 <= cal.weekday(day) <= 5 {
        n := n + 1;
      }
      day := day + 1;
    }
  }

  /** The second loop over the days of a project: each working day adds the daily revenue to
      the project's month and to the month's revenue total, the daily PD to the month's PD
      total, and the month to the set of months. */
  method SpreadProject(cal: Calendar, start: Day, end: Day, daily: real, dailyPD: real,
                       revenue0: map<string, real>, pd0: map<string, real>, months0: seq<string>)
    returns (breakdown: map<string, real>, keys: seq<string>,
             revenue: map<string, real>, pd: map<string, real>, months: seq<string>)
    requires start <= end
    ensures breakdown == Spread(cal, map[], start, end, daily) && keys == MonthsOf(cal, [], start, end)
    ensures revenue == Spread(cal, revenue0, start, end, daily) && pd == Spread(cal, pd0, start, end, dailyPD)
    ensures months == MonthsOf(cal, months0, start, end)
  {
    breakdown, keys, revenue, pd, months := map[], [], revenue0, pd0, months0;
    var day := start;
    while day <= end
      invariant start <= day <= end + 1
      invariant breakdown == Spread(cal, map[], start, day - 1, daily) && keys == MonthsOf(cal, [], start, day - 1)
      invariant revenue == Spread(cal, revenue0, start, day - 1, daily) && pd == Spread(cal, pd0, start, day - 1, dailyPD)
      invariant months == MonthsOf(cal, months0, start, day - 1)
      decreases end - day
    {
      if 1 <= cal.weekday(day) <= 5 {
        var key := cal.monthKey(day);
        breakdown := breakdown[key := Get(breakdown, key) + daily];
        if key !in keys {
          keys := keys + [key];
        }
        revenue := revenue[key := Get(revenue, key) + daily];
        pd := pd[key := Get(pd, key) + dailyPD];
        if key !in months {
          months := months + [key];
        }
      }
      day := day + 1;
    }
  }

  /** The body of the loop over the pages. */
  method ScanOne(cal: Calendar, group: Option<Grouping>, s: Scan, page: Page) returns (t: Scan)
    ensures t == ScanPage(cal, group, s, page)
  {
    if !Usable(page) {
      t := if page.nessieId || !page.salesforceId then s.(warnings := s.warnings + [page.link]) else s;
      return;
    }
    var start, end := page.start.value, page.end.value;
    var total := Income(page);
    var n := CountWorkdays(cal, start, end);
    if n == 0 {
      return s;
    }
    var daily := Share(total, n);
    var dailyPD := Share(page.budget.value, n);
    var breakdown, keys, revenue, pd, months := SpreadProject(cal, start, end, daily, dailyPD, s.revenue, s.pd, s.months);
    var project := Project(page.link, breakdown, keys, total, GroupValue(group, page));
    t := Scan(s.projects + [project], revenue, pd, months, s.warnings);
  }

  // ---------------------------------------------------------------------------------------
  // What the scan computes

  /** A project's breakdown object: keyed by exactly its month list, which has no duplicates. */
  ghost predicate WellFormed(p: Project) {
    NoDuplicates(p.months) && forall key :: key in p.breakdown <==> key in p.months
  }

  function TotalOf(p: Project): real {
    p.total
  }

  /** The amount a project has in a month. */
  function AmountIn(key: string): Project -> real {
    (p: Project) => Get(p.breakdown, key)
  }

  /** The budget of a page, 0 when it has none. */
  function Budget(page: Page): real {
    if page.budget.Some? then page.budget.value else 0.0
  }

  function IsCounted(cal: Calendar): Page -> bool {
    (page: Page) => Counted(cal, page)
  }

  /** Each working day of a project adds `Share(revenue, n)` to its month, where n is the
      project's number of working days; weekend days add nothing. */
  lemma ProjectShare(cal: Calendar, page: Page, key: string)
    requires Counted(cal, page)
    ensures var lo, hi := page.start.value, page.end.value;
            var daily := Share(Income(page), Workdays(cal, lo, hi));
            Get(Spread(cal, map[], lo, hi, daily), key) == daily * WorkdaysIn(cal, lo, hi, key) as real
  {
    var lo, hi := page.start.value, page.end.value;
    var daily := Share(Income(page), Workdays(cal, lo, hi));
    SpreadAt(cal, map[], lo, hi, daily, key);
    RepeatIsProduct(daily, WorkdaysIn(cal, lo, hi, key));
  }

  /** Conservation per project: its months add up to its revenue, budget times rate, and the
      PD it spreads add up to its budget. */
  lemma ProjectConservation(cal: Calendar, page: Page)
    requires Counted(cal, page)
    ensures var lo, hi := page.start.value, page.end.value;
            var n := Workdays(cal, lo, hi);
            SumOver(MonthsOf(cal, [], lo, hi), Spread(cal, map[], lo, hi, Share(Income(page), n))) == Income(page)
            && SumOver(MonthsOf(cal, [], lo, hi), Spread(cal, map[], lo, hi, Share(page.budget.value, n))) == page.budget.value
  {
    var lo, hi := page.start.value, page.end.value;
    var n := Workdays(cal, lo, hi);
    SpreadAddsUp(cal, map[], [], lo, hi, Share(Income(page), n));
    SpreadAddsUp(cal, map[], [], lo, hi, Share(page.budget.value, n));
    RepeatShare(Income(page), n);
    RepeatShare(page.budget.value, n);
  }

  /** The project a counted page contributes. */
  function PageProject(cal: Calendar, group: Option<Grouping>, page: Page): Project
    requires Counted(cal, page)
  {
    var lo, hi := page.start.value, page.end.value;
    var total := Income(page);
    Project(page.link, Spread(cal, map[], lo, hi, Share(total, Workdays(cal, lo, hi))), MonthsOf(cal, [], lo, hi), total, GroupValue(group, page))
  }

  /** A counted page's project is well formed, its months add up to its revenue, and it has
      revenue exactly in the months of its working days. */
  lemma PageProjectShape(cal: Calendar, group: Option<Grouping>, page: Page)
    requires Counted(cal, page)
    ensures var p := PageProject(cal, group, page);
            WellFormed(p) && SumOver(p.months, p.breakdown) == p.total
            && forall key :: key in p.breakdown <==> WorkdaysIn(cal, page.start.value, page.end.value, key) > 0
  {
    var lo, hi := page.start.value, page.end.value;
    var daily := Share(Income(page), Workdays(cal, lo, hi));
    ProjectConservation(cal, page);
    MonthsOfGrows(cal, [], lo, hi);
    forall key ensures key in Spread(cal, map[], lo, hi, daily) <==> WorkdaysIn(cal, lo, hi, key) > 0 {
      SpreadAt(cal, map[], lo, hi, daily, key);
    }
  }

  /** The scan's month list has no duplicates and holds every month of the totals. */
  lemma {:induction false} ScanMonthsDistinct(cal: Calendar, group: Option<Grouping>, pages: seq<Page>)
    ensures var s := ScanPages(cal, group, pages);
            NoDuplicates(s.months)
            && (forall key :: key in s.revenue ==> key in s.months)
            && (forall key :: key in s.pd ==> key in s.months)
  {
    if pages != [] {
      var init := pages[..|pages| - 1];
      var page := pages[|pages| - 1];
      ScanMonthsDistinct(cal, group, init);
      var s := ScanPages(cal, group, init);
      if Counted(cal, page) {
        var lo, hi := page.start.value, page.end.value;
        var n := Workdays(cal, lo, hi);
        SpreadInvariant(cal, s.revenue, s.months, lo, hi, Share(Income(page), n));
        SpreadInvariant(cal, s.pd, s.months, lo, hi, Share(page.budget.value, n));
      }
    }
  }

  /** `p` is the project of one of the counted pages. */
  ghost predicate FromPage(cal: Calendar, group: Option<Grouping>, pages: seq<Page>, p: Project) {
    exists i :: 0 <= i < |pages| && Counted(cal, pages[i]) && p == PageProject(cal, group, pages[i])
  }

  /** The scan's projects are the projects of the counted pages. */
  lemma {:induction false} ScanProjects(cal: Calendar, group: Option<Grouping>, pages: seq<Page>)
    ensures forall p :: p in ScanPages(cal, group, pages).projects ==> FromPage(cal, group, pages, p)
  {
    if pages != [] {
      var init := pages[..|pages| - 1];
      var page := pages[|pages| - 1];
      var s := ScanPages(cal, group, init);
      ScanProjects(cal, group, init);
      forall p | p in ScanPages(cal, group, pages).projects
        ensures FromPage(cal, group, pages, p)
      {
        if p in s.projects {
          var i :| 0 <= i < |init| && Counted(cal, init[i]) && p == PageProject(cal, group, init[i]);
          assert pages[i] == init[i];
        } else {
          assert Counted(cal, page) && p == PageProject(cal, group, pages[|pages| - 1]);
        }
      }
    }
  }

  /** The scan's month list has no duplicates and holds every month of the totals; every project
      is well formed and its months add up to its revenue; the months listed are exactly those
      in which some project has revenue. */
  lemma ScanShape(cal: Calendar, group: Option<Grouping>, pages: seq<Page>)
    ensures var s := ScanPages(cal, group, pages);
            NoDuplicates(s.months)
            && (forall key :: key in s.revenue ==> key in s.months)
            && (forall key :: key in s.pd ==> key in s.months)
            && (forall p :: p in s.projects ==> WellFormed(p) && SumOver(p.months, p.breakdown) == p.total)
            && (forall key :: key in s.months <==> exists p :: p in s.projects && key in p.breakdown)
  {
    var s := ScanPages(cal, group, pages);
    ScanMonthsDistinct(cal, group, pages);
    ScanProjects(cal, group, pages);
    ScanMonths(cal, group, pages);
    forall p | p in s.projects
      ensures WellFormed(p) && SumOver(p.months, p.breakdown) == p.total
    {
      var i :| 0 <= i < |pages| && Counted(cal, pages[i]) && p == PageProject(cal, group, pages[i]);
      PageProjectShape(cal, group, pages[i]);
    }
    forall key ensures key in s.months <==> exists p :: p in s.projects && key in p.breakdown {
      if key in s.months {
        ScanActiveProject(cal, group, pages, key);
      }
      if p :| p in s.projects && key in p.breakdown {
        var i :| 0 <= i < |pages| && Counted(cal, pages[i]) && p == PageProject(cal, group, pages[i]);
        PageProjectShape(cal, group, pages[i]);
        assert Active(cal, pages, key);
      }
    }
  }

  /** A month in which a counted page has working days is a month of that page's project. */
  lemma {:induction false} ScanActiveProject(cal: Calendar, group: Option<Grouping>, pages: seq<Page>, key: string)
    requires Active(cal, pages, key)
    ensures exists p :: p in ScanPages(cal, group, pages).projects && key in p.breakdown
  {
    var init := pages[..|pages| - 1];
    var page := pages[|pages| - 1];
    var i :| 0 <= i < |pages| && Counted(cal, pages[i]) && WorkdaysIn(cal, pages[i].start.value, pages[i].end.value, key) > 0;
    if i == |pages| - 1 {
      PageProjectShape(cal, group, page);
      assert PageProject(cal, group, page) in ScanPages(cal, group, pages).projects;
    } else {
      assert init[i] == pages[i];
      ScanActiveProject(cal, group, init, key);
      var p :| p in ScanPages(cal, group, init).projects && key in p.breakdown;
      assert p in ScanPages(cal, group, pages).projects;
    }
  }

  /** The revenue total of every month is the sum over all projects of their amount in it, for
      all months, displayed or not. */
  lemma {:induction false} ScanRevenueByMonth(cal: Calendar, group: Option<Grouping>, pages: seq<Page>, key: string)
    ensures Get(ScanPages(cal, group, pages).revenue, key) == SumBy(ScanPages(cal, group, pages).projects, AmountIn(key))
  {
    if pages != [] {
      var init := pages[..|pages| - 1];
      var page := pages[|pages| - 1];
      ScanRevenueByMonth(cal, group, init, key);
      var s := ScanPages(cal, group, init);
      if Counted(cal, page) {
        var lo, hi := page.start.value, page.end.value;
        var daily := Share(Income(page), Workdays(cal, lo, hi));
        var t := ScanPage(cal, group, s, page);
        var project := t.projects[|t.projects| - 1];
        assert t.projects == s.projects + [project];
        SumBySnoc(s.projects, project, AmountIn(key));
        SpreadAt(cal, s.revenue, lo, hi, daily, key);
        SpreadAt(cal, map[], lo, hi, daily, key);
      }
    }
  }

  /** Over all months, the revenue totals add up to the projects' revenues and the PD totals to
      the budgets of the pages that became projects. */
  lemma {:induction false} ScanTotals(cal: Calendar, group: Option<Grouping>, pages: seq<Page>)
    ensures var s := ScanPages(cal, group, pages);
            SumOver(s.months, s.revenue) == SumBy(s.projects, TotalOf)
            && SumOver(s.months, s.pd) == SumBy(Filter(pages, IsCounted(cal)), Budget)
  {
    if pages != [] {
      var init := pages[..|pages| - 1];
      var page := pages[|pages| - 1];
      ScanTotals(cal, group, init);
      ScanShape(cal, group, init);
      var s := ScanPages(cal, group, init);
      if Counted(cal, page) {
        var lo, hi := page.start.value, page.end.value;
        var n := Workdays(cal, lo, hi);
        var t := ScanPage(cal, group, s, page);
        var project := t.projects[|t.projects| - 1];
        assert t.projects == s.projects + [project];
        SumBySnoc(s.projects, project, TotalOf);
        SumBySnoc(Filter(init, IsCounted(cal)), page, Budget);
        SpreadAddsUp(cal, s.revenue, s.months, lo, hi, Share(Income(page), n));
        SpreadAddsUp(cal, s.pd, s.months, lo, hi, Share(page.budget.value, n));
        RepeatShare(Income(page), n);
        RepeatShare(page.budget.value, n);
      }
    }
  }

  // ---------------------------------------------------------------------------------------
  // Displayed months and the two messages

  function TextKey(s: string): SortKey {
    StringKey(s)
  }

  /** The month `key` overlaps [from, to]: it ends on or after `from` and starts on or before `to`. */
  function Overlaps(cal: Calendar, from: Day, to: Day): string -> bool {
    (key: string) => cal.monthEnd(key) >= from && cal.monthStart(key) <= to
  }

  /** `Array.from(allMonths).sort()`, filtered to the months overlapping the date filter. */
  function DisplayedMonths(cal: Calendar, months: seq<string>, from: Day, to: Day): seq<string> {
    Filter(SortBy(months, TextKey), Overlaps(cal, from, to))
  }

  /** The displayed months are in ascending order without repetition, and they are exactly the
      months seen that overlap the filter. */
  lemma DisplayedMonthsOrdered(cal: Calendar, months: seq<string>, from: Day, to: Day)
    requires NoDuplicates(months)
    ensures var shown := DisplayedMonths(cal, months, from, to);
            SortedBy(shown, TextKey) && NoDuplicates(shown)
            && forall key :: key in shown <==> key in months && cal.monthEnd(key) >= from && cal.monthStart(key) <= to
  {
    var sorted := SortBy(months, TextKey);
    SortByPermutesAndOrders(months, TextKey);
    SortByDistinct(months, TextKey);
    FilterKeepsOrder(sorted, Overlaps(cal, from, to), TextKey);
    forall key ensures key in sorted <==> key in months {
      assert key in sorted <==> key in multiset(sorted);
      assert key in months <==> key in multiset(months);
    }
  }

  const DefaultFrom: string := "2020-01-01"
  const DefaultTo: string := "2029-12-31"

  /** `x ?? fallback`. */
  function OrDefault(x: Option<string>, fallback: string): string {
    if x.Some? then x.value else fallback
  }

  /** How a template literal prints an optional string argument. */
  function Interpolated(x: Option<string>): string {
    if x.Some? then x.value else "undefined"
  }

  function DateError(fromDate: Option<string>, toDate: Option<string>): string {
    "Error parsing date filters. " + "Please ensure from_date ('" + Interpolated(fromDate)
    + "') and to_date ('" + Interpolated(toDate) + "') are in-MM-DD format."
  }

  function NoMonthsMessage(cal: Calendar, from: Day, to: Day): string {
    "No months between " + cal.monthKey(from) + " and " + cal.monthKey(to)
    + " contain working days from the selected projects."
  }

  function NoProjectsMessage(cal: Calendar, from: Day, to: Day): string {
    "No projects found with valid revenue " + "or budget data with execution dates between "
    + cal.dayText(from) + " and " + cal.dayText(to) + "."
  }

  /** The message when no month is displayed, depending on whether any project was found. */
  function NothingToShow(cal: Calendar, s: Scan, from: Day, to: Day): string {
    if |s.projects| > 0 then NoMonthsMessage(cal, from, to) else NoProjectsMessage(cal, from, to)
  }

  // ---------------------------------------------------------------------------------------
  // Grouping

  /** `if (group)`: a function, or a non-empty field name. */
  predicate Grouped(group: Option<Grouping>) {
    group.Some? && (group.value.Computed? || group.value.name != "")
  }

  /** The key of a group value: undefined, null and blank strings are 'Unspecified', an object
      with a display text is that text, anything else is its String() form. */
  function GroupKey(v: Value): string {
    match v
    case Undefined => "Unspecified"
    case Null => "Unspecified"
    case Str(s) => if Trim(s) == "" then "Unspecified" else s
    case Obj(display, shown) => if display != "" then display else shown
    case Other(shown) => shown
  }

  datatype Group = Group(breakdown: map<string, real>, total: real)

  /** The `groupedData` object: its keys in insertion order and its entries. */
  datatype Groups = Groups(keys: seq<string>, data: map<string, Group>)

  /** The group after the first `n` months of the project's breakdown: each displayed month's
      amount is added to the group's month and to its total. */
  function AddMonths(g: Group, p: Project, shown: seq<string>, n: nat): Group
    requires n <= |p.months|
  {
    if n == 0 then g
    else
      var h := AddMonths(g, p, shown, n - 1);
      var month := p.months[n - 1];
      if month in shown then
        var amount := Get(p.breakdown, month);
        Group(h.breakdown[month := Get(h.breakdown, month) + amount], h.total + amount)
      else h
  }

  /** One project of the loop over the projects: its group is created if new, then its months
      are added. */
  function AddProject(gs: Groups, p: Project, shown: seq<string>): Groups {
    var key := GroupKey(p.groupValue);
    var g := if key in gs.data then gs.data[key] else Group(map[], 0.0);
    Groups(if key in gs.data then gs.keys else gs.keys + [key], gs.data[key := AddMonths(g, p, shown, |p.months|)])
  }

  function GroupAll(projects: seq<Project>, shown: seq<string>): Groups {
    if projects == [] then Groups([], map[])
    else AddProject(GroupAll(projects[..|projects| - 1], shown), projects[|projects| - 1], shown)
  }

  /** The inner loop: the displayed months of one project added to its group. */
  method AddProjectMonths(g: Group, p: Project, shown: seq<string>) returns (h: Group)
    ensures h == AddMonths(g, p, shown, |p.months|)
  {
    h := g;
    for j := 0 to |p.months|
      invariant h == AddMonths(g, p, shown, j)
    {
      var month := p.months[j];
      if month in shown {
        var amount := Get(p.breakdown, month);
        h := Group(h.breakdown[month := Get(h.breakdown, month) + amount], h.total + amount);
      }
    }
  }

  /** The outer loop of the grouped branch. */
  method GroupProjects(projects: seq<Project>, shown: seq<string>) returns (gs: Groups)
    ensures gs == GroupAll(projects, shown)
  {
    gs := Groups([], map[]);
    for i := 0 to |projects|
      invariant gs == GroupAll(projects[..i], shown)
    {
      var project := projects[i];
      var key := GroupKey(project.groupValue);
      if key !in gs.data {
        gs := Groups(gs.keys + [key], gs.data[key := Group(map[], 0.0)]);
      }
      var g := AddProjectMonths(gs.data[key], project, shown);
      gs := gs.(data := gs.data[key := g]);
      assert projects[..i + 1][..i] == projects[..i];
    }
    assert projects[..|projects|] == projects;
  }

  /** Adding a project's displayed months keeps a group's breakdown within the displayed months
      and its total equal to the sum of that breakdown. */
  lemma {:induction false} AddMonthsKeepsTotal(g: Group, p: Project, shown: seq<string>, n: nat)
    requires n <= |p.months| && NoDuplicates(shown)
    requires (forall key :: key in g.breakdown ==> key in shown) && g.total == SumOver(shown, g.breakdown)
    ensures var h := AddMonths(g, p, shown, n);
            (forall key :: key in h.breakdown ==> key in shown) && h.total == SumOver(shown, h.breakdown)
  {
    if n > 0 {
      AddMonthsKeepsTotal(g, p, shown, n - 1);
      var h := AddMonths(g, p, shown, n - 1);
      var month := p.months[n - 1];
      if month in shown {
        SumOverSet(shown, h.breakdown, month, Get(h.breakdown, month) + Get(p.breakdown, month));
      }
    }
  }

  /** After the first `n` months of a project, a month of the group has gained the project's
      amount when the month is displayed and among those `n`. */
  lemma {:induction false} AddMonthsAt(g: Group, p: Project, shown: seq<string>, n: nat, month: string)
    requires n <= |p.months| && NoDuplicates(p.months)
    ensures Get(AddMonths(g, p, shown, n).breakdown, month)
         == Get(g.breakdown, month) + (if month in shown && month in p.months[..n] then Get(p.breakdown, month) else 0.0)
  {
    if n > 0 {
      AddMonthsAt(g, p, shown, n - 1, month);
      assert p.months[..n] == p.months[..n - 1] + [p.months[n - 1]];
      if p.months[n - 1] == month {
        assert month !in p.months[..n - 1];
      }
    }
  }

  /** The group an entry lookup finds, or an empty one. */
  function Lookup(gs: Groups, key: string): Group {
    if key in gs.data then gs.data[key] else Group(map[], 0.0)
  }

  /** The groups' keys are listed once each; every group holds displayed months only, and its
      total is the sum of its months. */
  lemma {:induction false} GroupShape(projects: seq<Project>, shown: seq<string>)
    requires NoDuplicates(shown)
    ensures var gs := GroupAll(projects, shown);
            NoDuplicates(gs.keys) && (forall key :: key in gs.keys <==> key in gs.data)
            && forall key :: key in gs.data ==>
                 (forall month :: month in gs.data[key].breakdown ==> month in shown)
                 && gs.data[key].total == SumOver(shown, gs.data[key].breakdown)
  {
    if projects != [] {
      var p := projects[|projects| - 1];
      GroupShape(projects[..|projects| - 1], shown);
      var gs := GroupAll(projects[..|projects| - 1], shown);
      SumOverEmpty(shown);
      AddMonthsKeepsTotal(Lookup(gs, GroupKey(p.groupValue)), p, shown, |p.months|);
    }
  }

  /** Each group's amount in one month. */
  function MonthView(gs: Groups, month: string): map<string, real> {
    map key | key in gs.data :: Get(gs.data[key].breakdown, month)
  }

  /** For each displayed month, the amounts of the groups add up to the amounts of all the
      projects. */
  lemma {:induction false} GroupsAddUp(projects: seq<Project>, shown: seq<string>, month: string)
    requires NoDuplicates(shown) && month in shown
    requires forall p :: p in projects ==> WellFormed(p)
    ensures var gs := GroupAll(projects, shown);
            SumOver(gs.keys, MonthView(gs, month)) == SumBy(projects, AmountIn(month))
  {
    if projects != [] {
      var init := projects[..|projects| - 1];
      var p := projects[|projects| - 1];
      assert projects == init + [p];
      assert p in projects;
      GroupsAddUp(init, shown, month);
      GroupShape(init, shown);
      SumBySnoc(init, p, AmountIn(month));
      AddProjectView(GroupAll(init, shown), p, shown, month);
    }
  }

  /** Adding one project adds its amount in a displayed month to the sum over the groups. */
  lemma AddProjectView(gs: Groups, p: Project, shown: seq<string>, month: string)
    requires NoDuplicates(gs.keys) && forall key :: key in gs.keys <==> key in gs.data
    requires WellFormed(p) && month in shown
    ensures var next := AddProject(gs, p, shown);
            SumOver(next.keys, MonthView(next, month)) == SumOver(gs.keys, MonthView(gs, month)) + Get(p.breakdown, month)
  {
    var key := GroupKey(p.groupValue);
    var g := Lookup(gs, key);
    var h := AddMonths(g, p, shown, |p.months|);
    var view := MonthView(gs, month);
    var next := AddProject(gs, p, shown);
    calc {
      SumOver(next.keys, MonthView(next, month));
      { MonthViewUpdate(gs, next.keys, key, h, month); }
      SumOver(next.keys, view[key := Get(h.breakdown, month)]);
      { AddAllMonths(g, p, shown, month); SumOverNewEntry(gs.keys, view, key, Get(h.breakdown, month)); }
      SumOver(gs.keys, view) + Get(p.breakdown, month);
    }
  }

  /** After all its months, a project's amount in a displayed month is in its group. */
  lemma AddAllMonths(g: Group, p: Project, shown: seq<string>, month: string)
    requires WellFormed(p) && month in shown
    ensures Get(AddMonths(g, p, shown, |p.months|).breakdown, month) == Get(g.breakdown, month) + Get(p.breakdown, month)
  {
    AddMonthsAt(g, p, shown, |p.months|, month);
    assert p.months[..|p.months|] == p.months;
  }

  lemma MonthViewUpdate(gs: Groups, keys: seq<string>, key: string, h: Group, month: string)
    ensures MonthView(Groups(keys, gs.data[key := h]), month) == MonthView(gs, month)[key := Get(h.breakdown, month)]
  {
  }

  /** Setting the entry of a key, listed once or appended when new, changes the sum by the
      difference. */
  lemma SumOverNewEntry(keys: seq<string>, m: map<string, real>, key: string, v: real)
    requires NoDuplicates(keys) && (key !in keys ==> Get(m, key) == 0.0)
    ensures SumOver(if key in keys then keys else keys + [key], m[key := v]) == SumOver(keys, m) - Get(m, key) + v
  {
    if key in keys {
      SumOverSet(keys, m, key, v);
    } else {
      SumOverElsewhere(keys, m, key, v);
      assert (keys + [key])[..|keys|] == keys;
    }
  }

  // ---------------------------------------------------------------------------------------
  // Items and their order

  /** `months.map(m => breakdown[m] || 0).findIndex(v => v > 0)`, searching from index `i`. */
  function FirstPositiveFrom(shown: seq<string>, b: map<string, real>, i: nat): (r: int)
    requires i <= |shown|
    decreases |shown| - i
    ensures r == -1 || i <= r < |shown|
    ensures r == -1 ==> forall k :: i <= k < |shown| ==> Get(b, shown[k]) <= 0.0
    ensures r >= 0 ==> Get(b, shown[r]) > 0.0 && forall k :: i <= k < r ==> Get(b, shown[k]) <= 0.0
  {
    if i == |shown| then -1
    else if Get(b, shown[i]) > 0.0 then i
    else FirstPositiveFrom(shown, b, i + 1)
  }

  /** The index of the first displayed month with a positive amount, -1 when there is none. */
  function FirstPositive(shown: seq<string>, b: map<string, real>): int {
    FirstPositiveFrom(shown, b, 0)
  }

  /** `link.display || link.path`. */
  function LinkName(l: Link): string {
    if l.display != "" then l.display else l.path
  }

  /** What the comparator compares two projects by: the name, the first displayed month with
      revenue, or (by default) the whole revenue, larger first. */
  function ProjectRank(sort: Option<Order>, shown: seq<string>): Project -> SortKey {
    (p: Project) =>
      if sort == Some(ByName) then StringKey(LinkName(p.name))
      else if sort == Some(ByMonth) then NumberKey(FirstPositive(shown, p.breakdown) as real)
      else NumberKey(-p.total)
  }

  /** What the comparator compares two groups by, for the orders other than by name. */
  function GroupRank(sort: Option<Order>, shown: seq<string>, gs: Groups): string -> SortKey {
    (key: string) =>
      if sort == Some(ByMonth) then NumberKey(FirstPositive(shown, Lookup(gs, key).breakdown) as real)
      else NumberKey(-Lookup(gs, key).total)
  }

  /** The group keys in display order: a plain sort by name, else by the comparator. */
  function SortedKeys(sort: Option<Order>, shown: seq<string>, gs: Groups): seq<string> {
    if sort == Some(ByName) then SortBy(gs.keys, TextKey) else SortBy(gs.keys, GroupRank(sort, shown, gs))
  }

  /** An item's id: a group key, or the link of a project. */
  datatype Id = GroupId(key: string) | LinkId(link: Link)

  datatype Item = Item(id: Id, breakdown: map<string, real>, total: real)

  function GroupItem(gs: Groups): string -> Item {
    (key: string) => Item(GroupId(key), Lookup(gs, key).breakdown, Lookup(gs, key).total)
  }

  /** A project's item: its whole breakdown, and its revenue in the displayed months. */
  function ProjectItem(shown: seq<string>): Project -> Item {
    (p: Project) => Item(LinkId(p.name), p.breakdown, SumOver(shown, p.breakdown))
  }

  function GroupedItems(projects: seq<Project>, shown: seq<string>, sort: Option<Order>): seq<Item> {
    var gs := GroupAll(projects, shown);
    MapSeq(GroupItem(gs), SortedKeys(sort, shown, gs))
  }

  function ProjectItems(projects: seq<Project>, shown: seq<string>, sort: Option<Order>): seq<Item> {
    MapSeq(ProjectItem(shown), SortBy(projects, ProjectRank(sort, shown)))
  }

  /** The ungrouped branch: the projects sorted, and for each its revenue in the displayed
      months added up. */
  method UngroupedItems(projects: seq<Project>, shown: seq<string>, sort: Option<Order>) returns (items: seq<Item>)
    ensures items == ProjectItems(projects, shown, sort)
  {
    var sorted := SortBy(projects, ProjectRank(sort, shown));
    items := [];
    for i := 0 to |sorted|
      invariant items == MapSeq(ProjectItem(shown), sorted[..i])
    {
      var project := sorted[i];
      var displayed := 0.0;
      for j := 0 to |shown|
        invariant displayed == SumOver(shown[..j], project.breakdown)
      {
        assert shown[..j + 1][..j] == shown[..j];
        displayed := displayed + Get(project.breakdown, shown[j]);
      }
      assert shown[..|shown|] == shown;
      MapSeqAppend(ProjectItem(shown), sorted[..i], [project]);
      assert sorted[..i + 1] == sorted[..i] + [project];
      items := items + [Item(LinkId(project.name), project.breakdown, displayed)];
    }
    assert sorted[..|sorted|] == sorted;
  }

  // ---------------------------------------------------------------------------------------
  // The whole computation

  /** The result: a message, or the items with the displayed months and the totals. */
  datatype Revenue = Plain(text: string)
                   | Report(items: seq<Item>, months: seq<string>, pdTotals: map<string, real>, revenueTotals: map<string, real>)

  /** What follows the loop over the pages. */
  function Present(cal: Calendar, s: Scan, from: Day, to: Day, group: Option<Grouping>, sort: Option<Order>): Revenue {
    var shown := DisplayedMonths(cal, s.months, from, to);
    if shown == [] then Plain(NothingToShow(cal, s, from, to))
    else Report(Items(s.projects, shown, group, sort), shown, s.pd, s.revenue)
  }

  function Items(projects: seq<Project>, shown: seq<string>, group: Option<Grouping>, sort: Option<Order>): seq<Item> {
    if Grouped(group) then GroupedItems(projects, shown, sort) else ProjectItems(projects, shown, sort)
  }

  function MonthlyRevenue(cal: Calendar, pages: seq<Page>, fromDate: Option<string>, toDate: Option<string>,
                          group: Option<Grouping>, sort: Option<Order>): Revenue {
    var from := cal.parse(OrDefault(fromDate, DefaultFrom));
    var to := cal.parse(OrDefault(toDate, DefaultTo));
    if from.None? || to.None? then Plain(DateError(fromDate, toDate))
    else Present(cal, ScanPages(cal, group, pages), from.value, to.value, group, sort)
  }

  /** The pages warned about: none when the dates do not parse. */
  function Warnings(cal: Calendar, pages: seq<Page>, fromDate: Option<string>, toDate: Option<string>,
                    group: Option<Grouping>): seq<Link> {
    if cal.parse(OrDefault(fromDate, DefaultFrom)).None? || cal.parse(OrDefault(toDate, DefaultTo)).None? then []
    else ScanPages(cal, group, pages).warnings
  }

  /** getMonthlyRevenue: the loop over the pages, then the displayed months, then the grouped
      or the ungrouped items. The warnings are the notices shown on the way. */
  method GetMonthlyRevenue(cal: Calendar, pages: seq<Page>, fromDate: Option<string>, toDate: Option<string>,
                           group: Option<Grouping>, sort: Option<Order>) returns (r: Revenue, warnings: seq<Link>)
    ensures r == MonthlyRevenue(cal, pages, fromDate, toDate, group, sort)
    ensures warnings == Warnings(cal, pages, fromDate, toDate, group)
  {
    var from := cal.parse(OrDefault(fromDate, DefaultFrom));
    var to := cal.parse(OrDefault(toDate, DefaultTo));
    if from.None? || to.None? {
      return Plain(DateError(fromDate, toDate)), [];
    }
    var s := Scan([], map[], map[], [], []);
    for i := 0 to |pages|
      invariant s == ScanPages(cal, group, pages[..i])
    {
      s := ScanOne(cal, group, s, pages[i]);
      ScanPagesSnoc(cal, group, pages, i);
    }
    assert pages[..|pages|] == pages;
    warnings := s.warnings;
    r := PresentScan(cal, s, from.value, to.value, group, sort);
  }

  /** The part of getMonthlyRevenue after the loop over the pages. */
  method PresentScan(cal: Calendar, s: Scan, from: Day, to: Day, group: Option<Grouping>, sort: Option<Order>) returns (r: Revenue)
    ensures r == Present(cal, s, from, to, group, sort)
  {
    var shown := DisplayedMonths(cal, s.months, from, to);
    if |shown| == 0 {
      return Plain(NothingToShow(cal, s, from, to));
    }
    var items := BuildItems(s.projects, shown, group, sort);
    r := Report(items, shown, s.pd, s.revenue);
  }

  /** The grouped or the ungrouped branch. */
  method BuildItems(projects: seq<Project>, shown: seq<string>, group: Option<Grouping>, sort: Option<Order>) returns (items: seq<Item>)
    ensures items == Items(projects, shown, group, sort)
  {
    if Grouped(group) {
      var gs := GroupProjects(projects, shown);
      items := MapSeq(GroupItem(gs), SortedKeys(sort, shown, gs));
    } else {
      items := UngroupedItems(projects, shown, sort);
    }
  }

  // ---------------------------------------------------------------------------------------
  // What the report promises

  /** The months seen while scanning are the months in which some counted page has a working day. */
  ghost predicate Active(cal: Calendar, pages: seq<Page>, key: string) {
    exists i :: 0 <= i < |pages| && Counted(cal, pages[i]) && WorkdaysIn(cal, pages[i].start.value, pages[i].end.value, key) > 0
  }

  lemma {:induction false} ScanMonths(cal: Calendar, group: Option<Grouping>, pages: seq<Page>)
    ensures forall key :: key in ScanPages(cal, group, pages).months <==> Active(cal, pages, key)
    ensures |ScanPages(cal, group, pages).projects| == |Filter(pages, IsCounted(cal))|
  {
    if pages != [] {
      var init := pages[..|pages| - 1];
      var page := pages[|pages| - 1];
      ScanMonths(cal, group, init);
      assert pages == init + [page];
      ScanMonthsStep(cal, group, init, page);
    }
  }

  /** One more page: its working months join the month set when it is counted. */
  lemma ScanMonthsStep(cal: Calendar, group: Option<Grouping>, init: seq<Page>, page: Page)
    requires forall key :: key in ScanPages(cal, group, init).months <==> Active(cal, init, key)
    ensures forall key :: key in ScanPage(cal, group, ScanPages(cal, group, init), page).months <==> Active(cal, init + [page], key)
  {
    var pages := init + [page];
    var s := ScanPages(cal, group, init);
    if Counted(cal, page) {
      MonthsOfGrows(cal, s.months, page.start.value, page.end.value);
    }
    forall key ensures key in ScanPage(cal, group, s, page).months <==> Active(cal, pages, key) {
      if Active(cal, init, key) {
        var i :| 0 <= i < |init| && Counted(cal, init[i]) && WorkdaysIn(cal, init[i].start.value, init[i].end.value, key) > 0;
        assert pages[i] == init[i];
      }
      if Active(cal, pages, key) {
        var i :| 0 <= i < |pages| && Counted(cal, pages[i]) && WorkdaysIn(cal, pages[i].start.value, pages[i].end.value, key) > 0;
        if i < |init| {
          assert init[i] == pages[i];
        }
      }
    }
  }

  /** The warnings are the links of the pages skipped with a Nessie id or without a Salesforce
      id, in page order. */
  lemma {:induction false} ScanWarnings(cal: Calendar, group: Option<Grouping>, pages: seq<Page>)
    ensures ScanPages(cal, group, pages).warnings == MapSeq(LinkOf, Filter(pages, Warns))
  {
    if pages != [] {
      var init := pages[..|pages| - 1];
      var page := pages[|pages| - 1];
      ScanWarnings(cal, group, init);
      MapSeqAppend(LinkOf, Filter(init, Warns), [page]);
      assert pages == init + [page];
    }
  }

  function LinkOf(page: Page): Link {
    page.link
  }

  /** The displayed months, in terms of the pages. */
  lemma ScanDisplayed(cal: Calendar, group: Option<Grouping>, pages: seq<Page>, from: Day, to: Day)
    ensures var shown := DisplayedMonths(cal, ScanPages(cal, group, pages).months, from, to);
            SortedBy(shown, TextKey) && NoDuplicates(shown)
            && forall key :: key in shown <==> Active(cal, pages, key) && cal.monthEnd(key) >= from && cal.monthStart(key) <= to
  {
    ScanMonthsDistinct(cal, group, pages);
    ScanMonths(cal, group, pages);
    DisplayedMonthsOrdered(cal, ScanPages(cal, group, pages).months, from, to);
  }

  /** A message after the loop over the pages is one of the two "No ..." messages. */
  lemma PresentMessage(cal: Calendar, s: Scan, from: Day, to: Day, group: Option<Grouping>, sort: Option<Order>)
    ensures Present(cal, s, from, to, group, sort).Plain? ==> Present(cal, s, from, to, group, sort).text[0] == 'N'
  {
    if |s.projects| > 0 {
      var m := NoMonthsMessage(cal, from, to);
      assert m[0] == 'N';
    } else {
      var m := NoProjectsMessage(cal, from, to);
      assert m[0] == 'N';
    }
  }

  /** The date filters, 2020-01-01 and 2029-12-31 when not given, give the date error message
      exactly when one of them does not parse; then no page is warned about. */
  lemma DateFilterError(cal: Calendar, pages: seq<Page>, fromDate: Option<string>, toDate: Option<string>,
                        group: Option<Grouping>, sort: Option<Order>)
    ensures var bad := cal.parse(OrDefault(fromDate, "2020-01-01")).None?
                       || cal.parse(OrDefault(toDate, "2029-12-31")).None?;
            (bad <==> MonthlyRevenue(cal, pages, fromDate, toDate, group, sort) == Plain(DateError(fromDate, toDate)))
            && (bad ==> Warnings(cal, pages, fromDate, toDate, group) == [])
  {
    var from := cal.parse(OrDefault(fromDate, DefaultFrom));
    var to := cal.parse(OrDefault(toDate, DefaultTo));
    if from.Some? && to.Some? {
      PresentMessage(cal, ScanPages(cal, group, pages), from.value, to.value, group, sort);
      assert DateError(fromDate, toDate)[0] == 'E';
    }
  }

  /** When the dates parse, the result is a message exactly when no month with working days of
      a counted page overlaps the filter; the message says whether any page counted. */
  lemma Messages(cal: Calendar, pages: seq<Page>, fromDate: Option<string>, toDate: Option<string>,
                 group: Option<Grouping>, sort: Option<Order>, from: Day, to: Day)
    requires cal.parse(OrDefault(fromDate, DefaultFrom)) == Some(from) && cal.parse(OrDefault(toDate, DefaultTo)) == Some(to)
    ensures var r := MonthlyRevenue(cal, pages, fromDate, toDate, group, sort);
            (r.Plain? <==> forall key :: Active(cal, pages, key) ==> !(cal.monthEnd(key) >= from && cal.monthStart(key) <= to))
            && (r.Plain? ==> r.text == if Filter(pages, IsCounted(cal)) != [] then NoMonthsMessage(cal, from, to)
                                       else NoProjectsMessage(cal, from, to))
  {
    var s := ScanPages(cal, group, pages);
    var shown := DisplayedMonths(cal, s.months, from, to);
    assert MonthlyRevenue(cal, pages, fromDate, toDate, group, sort) == Present(cal, s, from, to, group, sort);
    ScanDisplayed(cal, group, pages, from, to);
    ScanMonths(cal, group, pages);
    if shown != [] {
      assert shown[0] in shown;
    }
  }

  /** The displayed months are ascending and distinct: the months with working days of a
      counted page that overlap the filter. */
  lemma ReportMonths(cal: Calendar, pages: seq<Page>, fromDate: Option<string>, toDate: Option<string>,
                     group: Option<Grouping>, sort: Option<Order>, from: Day, to: Day)
    requires cal.parse(OrDefault(fromDate, DefaultFrom)) == Some(from) && cal.parse(OrDefault(toDate, DefaultTo)) == Some(to)
    ensures var r := MonthlyRevenue(cal, pages, fromDate, toDate, group, sort);
            r.Report? ==>
              SortedBy(r.months, TextKey) && NoDuplicates(r.months)
              && forall key :: key in r.months <==> Active(cal, pages, key) && cal.monthEnd(key) >= from && cal.monthStart(key) <= to
  {
    var s := ScanPages(cal, group, pages);
    assert MonthlyRevenue(cal, pages, fromDate, toDate, group, sort) == Present(cal, s, from, to, group, sort);
    ScanDisplayed(cal, group, pages, from, to);
  }

  /** An item's amount in a month. */
  function ItemAmountIn(month: string): Item -> real {
    (item: Item) => Get(item.breakdown, month)
  }

  /** A group's amount in a month. */
  function KeyAmountIn(gs: Groups, month: string): string -> real {
    (key: string) => Get(Lookup(gs, key).breakdown, month)
  }

  function GetIn(m: map<string, real>): string -> real {
    (key: string) => Get(m, key)
  }

  lemma {:induction false} SumOverIsSumBy(keys: seq<string>, m: map<string, real>)
    ensures SumOver(keys, m) == SumBy(keys, GetIn(m))
  {
    if keys != [] {
      var init := keys[..|keys| - 1];
      SumOverIsSumBy(init, m);
      SumBySnoc(init, keys[|keys| - 1], GetIn(m));
      assert keys == init + [keys[|keys| - 1]];
    }
  }

  /** The groups' amounts in a month, in any order of the keys, add up to the projects' amounts. */
  lemma GroupItemsAddUp(projects: seq<Project>, shown: seq<string>, month: string, sorted: seq<string>)
    requires NoDuplicates(shown) && month in shown
    requires forall p :: p in projects ==> WellFormed(p)
    requires sorted == SortBy(GroupAll(projects, shown).keys, TextKey)
          || exists sort :: sorted == SortBy(GroupAll(projects, shown).keys, GroupRank(sort, shown, GroupAll(projects, shown)))
    ensures SumBy(MapSeq(GroupItem(GroupAll(projects, shown)), sorted), ItemAmountIn(month)) == SumBy(projects, AmountIn(month))
  {
    var gs := GroupAll(projects, shown);
    GroupShape(projects, shown);
    SumByMap(GroupItem(gs), sorted, ItemAmountIn(month), KeyAmountIn(gs, month));
    if sorted == SortBy(gs.keys, TextKey) {
      SumBySorted(gs.keys, TextKey, KeyAmountIn(gs, month));
    } else {
      var sort :| sorted == SortBy(gs.keys, GroupRank(sort, shown, gs));
      SumBySorted(gs.keys, GroupRank(sort, shown, gs), KeyAmountIn(gs, month));
    }
    SumOverIsSumBy(gs.keys, MonthView(gs, month));
    SumByPointwise(gs.keys, GetIn(MonthView(gs, month)), KeyAmountIn(gs, month));
    GroupsAddUp(projects, shown, month);
  }

  lemma ItemsAddUpAt(projects: seq<Project>, shown: seq<string>, group: Option<Grouping>, sort: Option<Order>, month: string)
    requires NoDuplicates(shown) && month in shown
    requires forall p :: p in projects ==> WellFormed(p)
    ensures SumBy(Items(projects, shown, group, sort), ItemAmountIn(month)) == SumBy(projects, AmountIn(month))
  {
    if Grouped(group) {
      GroupItemsAddUp(projects, shown, month, SortedKeys(sort, shown, GroupAll(projects, shown)));
    } else {
      var sorted := SortBy(projects, ProjectRank(sort, shown));
      SumByMap(ProjectItem(shown), sorted, ItemAmountIn(month), AmountIn(month));
      SumBySorted(projects, ProjectRank(sort, shown), AmountIn(month));
    }
  }

  /** For every displayed month, the items' amounts add up to the month's revenue total, in the
      grouped and in the ungrouped report alike. */
  lemma ItemsAddUp(cal: Calendar, pages: seq<Page>, fromDate: Option<string>, toDate: Option<string>,
                   group: Option<Grouping>, sort: Option<Order>, month: string)
    ensures var r := MonthlyRevenue(cal, pages, fromDate, toDate, group, sort);
            r.Report? && month in r.months ==> SumBy(r.items, ItemAmountIn(month)) == Get(r.revenueTotals, month)
  {
    var r := MonthlyRevenue(cal, pages, fromDate, toDate, group, sort);
    if r.Report? && month in r.months {
      var from := cal.parse(OrDefault(fromDate, DefaultFrom)).value;
      var to := cal.parse(OrDefault(toDate, DefaultTo)).value;
      var s := ScanPages(cal, group, pages);
      ScanShape(cal, group, pages);
      DisplayedMonthsOrdered(cal, s.months, from, to);
      ItemsAddUpAt(s.projects, r.months, group, sort, month);
      ScanRevenueByMonth(cal, group, pages, month);
    }
  }

  /** The group keys in display order: each key once, ordered as the sort option asks. */
  lemma SortedKeysOrder(gs: Groups, shown: seq<string>, sort: Option<Order>)
    requires NoDuplicates(gs.keys)
    ensures var sorted := SortedKeys(sort, shown, gs);
            NoDuplicates(sorted) && (forall key :: key in sorted <==> key in gs.keys)
            && forall i, j :: 0 <= i < j < |sorted| ==>
                 (sort == Some(ByName) ==> TextLe(sorted[i], sorted[j]))
                 && (sort == Some(ByMonth) ==> FirstPositive(shown, Lookup(gs, sorted[i]).breakdown) <= FirstPositive(shown, Lookup(gs, sorted[j]).breakdown))
                 && (sort != Some(ByName) && sort != Some(ByMonth) ==> Lookup(gs, sorted[i]).total >= Lookup(gs, sorted[j]).total)
  {
    if sort == Some(ByName) {
      SortByFacts(gs.keys, TextKey);
    } else {
      SortByFacts(gs.keys, GroupRank(sort, shown, gs));
    }
  }

  /** The grouped items: one per group key, each key once; each item's months are displayed
      months and its total is their sum. */
  lemma GroupedItemsShape(projects: seq<Project>, shown: seq<string>, sort: Option<Order>)
    requires NoDuplicates(shown)
    ensures var gs := GroupAll(projects, shown);
            var items := GroupedItems(projects, shown, sort);
            |items| == |gs.keys|
            && (forall key :: key in gs.keys <==> GroupId(key) in MapSeq(ItemId, items))
            && forall i :: 0 <= i < |items| ==>
                 items[i].id.GroupId? && items[i].total == SumOver(shown, items[i].breakdown)
                 && forall month :: month in items[i].breakdown ==> month in shown
  {
    GroupedItemsKeys(projects, shown, sort);
    GroupedItemsTotals(projects, shown, sort);
  }

  lemma GroupedItemsKeys(projects: seq<Project>, shown: seq<string>, sort: Option<Order>)
    requires NoDuplicates(shown)
    ensures var gs := GroupAll(projects, shown);
            var items := GroupedItems(projects, shown, sort);
            |items| == |gs.keys| && forall key :: key in gs.keys <==> GroupId(key) in MapSeq(ItemId, items)
  {
    var gs := GroupAll(projects, shown);
    GroupShape(projects, shown);
    SortedKeysOrder(gs, shown, sort);
    MapSeqIds(gs, SortedKeys(sort, shown, gs));
  }

  lemma GroupedItemsTotals(projects: seq<Project>, shown: seq<string>, sort: Option<Order>)
    requires NoDuplicates(shown)
    ensures var items := GroupedItems(projects, shown, sort);
            forall i :: 0 <= i < |items| ==>
              items[i].id.GroupId? && items[i].total == SumOver(shown, items[i].breakdown)
              && forall month :: month in items[i].breakdown ==> month in shown
  {
    var gs := GroupAll(projects, shown);
    var sorted := SortedKeys(sort, shown, gs);
    GroupShape(projects, shown);
    GroupedItemsAt(gs, sorted);
    forall i | 0 <= i < |sorted|
      ensures Lookup(gs, sorted[i]).total == SumOver(shown, Lookup(gs, sorted[i]).breakdown)
    {
      if sorted[i] !in gs.data {
        SumOverEmpty(shown);
      }
    }
  }

  /** The grouped items are ordered as the sort option asks, and no key comes twice. */
  lemma GroupedItemsOrder(projects: seq<Project>, shown: seq<string>, sort: Option<Order>)
    requires NoDuplicates(shown)
    ensures var items := GroupedItems(projects, shown, sort);
            (forall i :: 0 <= i < |items| ==> items[i].id.GroupId?)
            && forall i, j :: 0 <= i < j < |items| ==>
              items[i].id != items[j].id
              && (sort == Some(ByName) ==> TextLe(items[i].id.key, items[j].id.key))
              && (sort == Some(ByMonth) ==> FirstPositive(shown, items[i].breakdown) <= FirstPositive(shown, items[j].breakdown))
              && (sort != Some(ByName) && sort != Some(ByMonth) ==> items[i].total >= items[j].total)
  {
    var gs := GroupAll(projects, shown);
    GroupShape(projects, shown);
    SortedKeysOrder(gs, shown, sort);
    GroupedItemsAt(gs, SortedKeys(sort, shown, gs));
  }

  lemma GroupedItemsAt(gs: Groups, sorted: seq<string>)
    ensures forall i :: 0 <= i < |sorted| ==> MapSeq(GroupItem(gs), sorted)[i] == GroupItem(gs)(sorted[i])
  {
    forall i | 0 <= i < |sorted|
      ensures MapSeq(GroupItem(gs), sorted)[i] == GroupItem(gs)(sorted[i])
    {
      MapSeqAt(GroupItem(gs), sorted, i);
    }
  }

  function ItemId(item: Item): Id {
    item.id
  }

  lemma {:induction false} MapSeqIds(gs: Groups, keys: seq<string>)
    ensures forall key :: GroupId(key) in MapSeq(ItemId, MapSeq(GroupItem(gs), keys)) <==> key in keys
  {
    if keys != [] {
      MapSeqIds(gs, keys[1..]);
      assert keys == [keys[0]] + keys[1..];
    }
  }

  /** The projects in display order: by name, by the first displayed month with revenue, or
      by the revenue of all months, larger first. */
  lemma ProjectOrder(projects: seq<Project>, shown: seq<string>, sort: Option<Order>)
    ensures var sorted := SortBy(projects, ProjectRank(sort, shown));
            multiset(sorted) == multiset(projects)
            && forall i, j :: 0 <= i < j < |sorted| ==>
                 (sort == Some(ByName) ==> TextLe(LinkName(sorted[i].name), LinkName(sorted[j].name)))
                 && (sort == Some(ByMonth) ==> FirstPositive(shown, sorted[i].breakdown) <= FirstPositive(shown, sorted[j].breakdown))
                 && (sort != Some(ByName) && sort != Some(ByMonth) ==> sorted[i].total >= sorted[j].total)
  {
    SortByPermutesAndOrders(projects, ProjectRank(sort, shown));
  }

  /** The ungrouped items: the projects, each once, in the order the sort option asks for (by
      default by the revenue of all months, larger first), each with its revenue in the
      displayed months as its total. */
  lemma UngroupedItemsShape(projects: seq<Project>, shown: seq<string>, sort: Option<Order>)
    ensures var items := ProjectItems(projects, shown, sort);
            exists sorted: seq<Project> ::
              multiset(sorted) == multiset(projects) && |items| == |sorted|
              && (forall i :: 0 <= i < |items| ==>
                    items[i] == Item(LinkId(sorted[i].name), sorted[i].breakdown, SumOver(shown, sorted[i].breakdown)))
              && forall i, j :: 0 <= i < j < |sorted| ==>
                   (sort == Some(ByName) ==> TextLe(LinkName(sorted[i].name), LinkName(sorted[j].name)))
                   && (sort == Some(ByMonth) ==> FirstPositive(shown, sorted[i].breakdown) <= FirstPositive(shown, sorted[j].breakdown))
                   && (sort != Some(ByName) && sort != Some(ByMonth) ==> sorted[i].total >= sorted[j].total)
  {
    var sorted := SortBy(projects, ProjectRank(sort, shown));
    ProjectOrder(projects, shown, sort);
    var items := ProjectItems(projects, shown, sort);
    forall i | 0 <= i < |items|
      ensures items[i] == Item(LinkId(sorted[i].name), sorted[i].breakdown, SumOver(shown, sorted[i].breakdown))
    {
      MapSeqAt(ProjectItem(shown), sorted, i);
    }
  }

  // ---------------------------------------------------------------------------------------
  // The table (monthlyRevenuesTable)

  /** A body cell before it is turned into text: a label, an amount (shown with two decimals,
      in bold in the totals rows), or an item's id. */
  datatype Cell = Label(text: string) | Amount(value: real, bold: bool) | IdCell(id: Id)

  const PdLabel := "**PD Total**"
  const RevenueLabel := "**Revenue Total**"

  function MonthCell(m: map<string, real>, bold: bool): string -> Cell {
    (key: string) => Amount(Get(m, key), bold)
  }

  /** A totals row: the label, the total over the displayed months, then each month. */
  function TotalsRow(title: string, months: seq<string>, m: map<string, real>): seq<Cell> {
    [Label(title), Amount(SumOver(months, m), true)] + MapSeq(MonthCell(m, true), months)
  }

  /** An item's row: its id, its total, then its amount in each displayed month. */
  function ItemRow(months: seq<string>): Item -> seq<Cell> {
    (item: Item) => [IdCell(item.id), Amount(item.total, false)] + MapSeq(MonthCell(item.breakdown, false), months)
  }

  /** The body: the PD totals, the revenue totals, then one row per item. */
  function Body(months: seq<string>, pd: map<string, real>, revenue: map<string, real>, items: seq<Item>): seq<seq<Cell>> {
    [TotalsRow(PdLabel, months, pd), TotalsRow(RevenueLabel, months, revenue)] + MapSeq(ItemRow(months), items)
  }

  /** `s.replace(/\|/g, "\\|")`: every bar gets a backslash in front. */
  function Escape(s: string): (r: string)
    ensures |r| >= |s|
  {
    if s == [] then [] else (if s[0] == '|' then ['\\', '|'] else [s[0]]) + Escape(s[1..])
  }

  /** Drops the backslash in front of every escaped bar. */
  function Unescape(s: string): string {
    if s == [] then []
    else if |s| >= 2 && s[0] == '\\' && s[1] == '|' then ['|'] + Unescape(s[2..])
    else [s[0]] + Unescape(s[1..])
  }

  /** Every bar has a backslash right before it. */
  predicate BarsEscaped(s: string) {
    forall i :: 0 <= i < |s| && s[i] == '|' ==> i > 0 && s[i - 1] == '\\'
  }

  lemma {:induction false} EscapeShape(s: string)
    ensures BarsEscaped(Escape(s))
    ensures Escape(s) == [] || Escape(s)[0] != '|'
  {
    if s != [] {
      EscapeShape(s[1..]);
      var head := if s[0] == '|' then ['\\', '|'] else [s[0]];
      var e := Escape(s[1..]);
      forall i | 0 <= i < |head + e| && (head + e)[i] == '|'
        ensures i > 0 && (head + e)[i - 1] == '\\'
      {
        if i >= |head| {
          assert (head + e)[i] == e[i - |head|];
        }
      }
    }
  }

  /** Unescaping gives back the cell's text. */
  lemma {:induction false} EscapeRoundTrip(s: string)
    ensures Unescape(Escape(s)) == s
  {
    if s != [] {
      EscapeRoundTrip(s[1..]);
      EscapeShape(s[1..]);
      var e := Escape(s[1..]);
      if s[0] == '|' {
        assert Escape(s) == ['\\', '|'] + e;
        assert Escape(s)[2..] == e;
      } else {
        assert Escape(s) == [s[0]] + e;
        assert Escape(s)[1..] == e;
      }
    }
  }

  /** `String(cell)`: the host shows amounts with two decimals (`fixed`) and links as link text. */
  function CellText(fixed: real -> string, linkText: Link -> string, c: Cell): string {
    match c
    case Label(t) => t
    case Amount(x, bold) => if bold then "**" + fixed(x) + "**" else fixed(x)
    case IdCell(GroupId(key)) => key
    case IdCell(LinkId(l)) => linkText(l)
  }

  function EscapeCell(fixed: real -> string, linkText: Link -> string): Cell -> string {
    (c: Cell) => Escape(CellText(fixed, linkText, c))
  }

  function EscapeRow(fixed: real -> string, linkText: Link -> string): seq<Cell> -> seq<string> {
    (row: seq<Cell>) => MapSeq(EscapeCell(fixed, linkText), row)
  }

  datatype Align = Left | Right

  /** What the table shows: a paragraph, or a markdown table's head, body and alignment. */
  datatype Shown = Paragraph(text: string) | Table(head: seq<string>, body: seq<seq<string>>, alignment: seq<Align>)

  function RightAligned(n: nat): (r: seq<Align>)
    ensures |r| == n && forall i :: 0 <= i < n ==> r[i] == Right
  {
    if n == 0 then [] else RightAligned(n - 1) + [Right]
  }

  /** The table of a result: the months' headers are the host's month labels. */
  function TableOf(r: Revenue, monthLabel: string -> string, fixed: real -> string, linkText: Link -> string): Shown {
    match r
    case Plain(text) => Paragraph(text)
    case Report(items, months, pd, revenue) =>
      Table(["Project", "Total"] + MapSeq(monthLabel, months),
            MapSeq(EscapeRow(fixed, linkText), Body(months, pd, revenue, items)),
            [Left, Right] + RightAligned(|months|))
  }

  /** The loops that add up a totals row's grand total over the displayed months. */
  method TotalOver(months: seq<string>, m: map<string, real>) returns (total: real)
    ensures total == SumOver(months, m)
  {
    total := 0.0;
    for k := 0 to |months|
      invariant total == SumOver(months[..k], m)
    {
      assert months[..k + 1][..k] == months[..k];
      total := total + Get(m, months[k]);
    }
    assert months[..|months|] == months;
  }

  /** The loops that push one amount per displayed month. */
  method PushMonths(row: seq<Cell>, months: seq<string>, m: map<string, real>, bold: bool) returns (r: seq<Cell>)
    ensures r == row + MapSeq(MonthCell(m, bold), months)
  {
    r := row;
    for k := 0 to |months|
      invariant r == row + MapSeq(MonthCell(m, bold), months[..k])
    {
      MapSeqAppend(MonthCell(m, bold), months[..k], [months[k]]);
      assert months[..k + 1] == months[..k] + [months[k]];
      r := r + [Amount(Get(m, months[k]), bold)];
    }
    assert months[..|months|] == months;
  }

  /** The rows of the table: the two totals rows, then the item rows. */
  method BuildBody(months: seq<string>, pd: map<string, real>, revenue: map<string, real>, items: seq<Item>)
    returns (rows: seq<seq<Cell>>)
    ensures rows == Body(months, pd, revenue, items)
  {
    var pdGrand := TotalOver(months, pd);
    var pdRow := PushMonths([Label(PdLabel), Amount(pdGrand, true)], months, pd, true);
    var revenueGrand := TotalOver(months, revenue);
    var revenueRow := PushMonths([Label(RevenueLabel), Amount(revenueGrand, true)], months, revenue, true);
    var itemRows := [];
    for i := 0 to |items|
      invariant itemRows == MapSeq(ItemRow(months), items[..i])
    {
      var row := PushMonths([IdCell(items[i].id), Amount(items[i].total, false)], months, items[i].breakdown, false);
      MapSeqAppend(ItemRow(months), items[..i], [items[i]]);
      assert items[..i + 1] == items[..i] + [items[i]];
      itemRows := itemRows + [row];
    }
    assert items[..|items|] == items;
    rows := [pdRow, revenueRow] + itemRows;
  }

  /** monthlyRevenuesTable: the message as a paragraph, or the table of the report. */
  method MonthlyRevenuesTable(cal: Calendar, pages: seq<Page>, fromDate: Option<string>, toDate: Option<string>,
                              group: Option<Grouping>, sort: Option<Order>,
                              monthLabel: string -> string, fixed: real -> string, linkText: Link -> string)
    returns (shown: Shown)
    ensures shown == TableOf(MonthlyRevenue(cal, pages, fromDate, toDate, group, sort), monthLabel, fixed, linkText)
  {
    var r, _ := GetMonthlyRevenue(cal, pages, fromDate, toDate, group, sort);
    if r.Plain? {
      return Paragraph(r.text);
    }
    var rows := BuildBody(r.months, r.pdTotals, r.revenueTotals, r.items);
    shown := Table(["Project", "Total"] + MapSeq(monthLabel, r.months),
                   MapSeq(EscapeRow(fixed, linkText), rows),
                   [Left, Right] + RightAligned(|r.months|));
  }

  /** The amount a cell shows, 0 for the other cells. */
  function CellValue(c: Cell): real {
    if c.Amount? then c.value else 0.0
  }

  /** The amount in column `j` of a row. */
  function ColumnValue(j: nat): seq<Cell> -> real {
    (row: seq<Cell>) => if j < |row| then CellValue(row[j]) else 0.0
  }

  lemma MonthCellsAt(m: map<string, real>, bold: bool, months: seq<string>, k: nat)
    requires k < |months|
    ensures MapSeq(MonthCell(m, bold), months)[k] == Amount(Get(m, months[k]), bold)
  {
    MapSeqAt(MonthCell(m, bold), months, k);
  }

  /** Every row has a cell for the label or id, one for the total and one per displayed month:
      the totals rows show the PD and revenue totals of each month, an item row the item's total
      and its amount in each month. */
  lemma BodyShape(months: seq<string>, pd: map<string, real>, revenue: map<string, real>, items: seq<Item>)
    ensures var rows := Body(months, pd, revenue, items);
            |rows| == 2 + |items|
            && (forall i :: 0 <= i < |rows| ==> |rows[i]| == 2 + |months|)
            && rows[0][..2] == [Label(PdLabel), Amount(SumOver(months, pd), true)]
            && rows[1][..2] == [Label(RevenueLabel), Amount(SumOver(months, revenue), true)]
            && (forall k :: 0 <= k < |months| ==>
                  rows[0][2 + k] == Amount(Get(pd, months[k]), true) && rows[1][2 + k] == Amount(Get(revenue, months[k]), true))
            && forall i :: 0 <= i < |items| ==>
                 rows[2 + i][..2] == [IdCell(items[i].id), Amount(items[i].total, false)]
                 && forall k :: 0 <= k < |months| ==> rows[2 + i][2 + k] == Amount(Get(items[i].breakdown, months[k]), false)
  {
    var rows := Body(months, pd, revenue, items);
    forall k | 0 <= k < |months|
      ensures rows[0][2 + k] == Amount(Get(pd, months[k]), true) && rows[1][2 + k] == Amount(Get(revenue, months[k]), true)
    {
      MonthCellsAt(pd, true, months, k);
      MonthCellsAt(revenue, true, months, k);
    }
    forall i | 0 <= i < |rows|
      ensures |rows[i]| == 2 + |months|
    {
      if i >= 2 {
        MapSeqAt(ItemRow(months), items, i - 2);
      }
    }
    forall i | 0 <= i < |items|
      ensures rows[2 + i][..2] == [IdCell(items[i].id), Amount(items[i].total, false)]
      ensures forall k :: 0 <= k < |months| ==> rows[2 + i][2 + k] == Amount(Get(items[i].breakdown, months[k]), false)
    {
      MapSeqAt(ItemRow(months), items, i);
      forall k | 0 <= k < |months| ensures rows[2 + i][2 + k] == Amount(Get(items[i].breakdown, months[k]), false) {
        MonthCellsAt(items[i].breakdown, false, months, k);
      }
    }
  }

  /** A totals row's grand total is the sum of the month cells that follow it. */
  lemma TotalsRowAddsUp(title: string, months: seq<string>, m: map<string, real>)
    ensures var row := TotalsRow(title, months, m);
            CellValue(row[1]) == SumBy(row[2..], CellValue)
  {
    var row := TotalsRow(title, months, m);
    assert row[2..] == MapSeq(MonthCell(m, true), months);
    SumByMap(MonthCell(m, true), months, CellValue, GetIn(m));
    SumOverIsSumBy(months, m);
  }

  /** A month's column of item rows adds up to the items' amounts in that month. */
  lemma ItemColumn(months: seq<string>, pd: map<string, real>, revenue: map<string, real>, items: seq<Item>, k: nat)
    requires k < |months|
    ensures var rows := Body(months, pd, revenue, items);
            SumBy(rows[2..], ColumnValue(2 + k)) == SumBy(items, ItemAmountIn(months[k]))
            && CellValue(rows[1][2 + k]) == Get(revenue, months[k])
  {
    var rows := Body(months, pd, revenue, items);
    assert rows[2..] == MapSeq(ItemRow(months), items);
    assert rows[1] == TotalsRow(RevenueLabel, months, revenue);
    ItemsColumn(months, items, k);
    TotalsRowCell(RevenueLabel, months, revenue, k);
  }

  /** The month's column of the item rows holds each item's amount in that month. */
  lemma ItemsColumn(months: seq<string>, items: seq<Item>, k: nat)
    requires k < |months|
    ensures SumBy(MapSeq(ItemRow(months), items), ColumnValue(2 + k)) == SumBy(items, ItemAmountIn(months[k]))
  {
    forall item: Item ensures ColumnValue(2 + k)(ItemRow(months)(item)) == ItemAmountIn(months[k])(item) {
      MonthCellsAt(item.breakdown, false, months, k);
    }
    SumByMap(ItemRow(months), items, ColumnValue(2 + k), ItemAmountIn(months[k]));
  }

  /** A totals row holds the month's amount in the month's column. */
  lemma TotalsRowCell(title: string, months: seq<string>, m: map<string, real>, k: nat)
    requires k < |months|
    ensures CellValue(TotalsRow(title, months, m)[2 + k]) == Get(m, months[k])
  {
    MonthCellsAt(m, true, months, k);
  }

  /** In the table of a report, every month's column of item rows adds up to the revenue
      totals row's amount for that month. */
  lemma TableColumnsAddUp(cal: Calendar, pages: seq<Page>, fromDate: Option<string>, toDate: Option<string>,
                          group: Option<Grouping>, sort: Option<Order>, k: nat)
    ensures var r := MonthlyRevenue(cal, pages, fromDate, toDate, group, sort);
            r.Report? && k < |r.months| ==>
              var rows := Body(r.months, r.pdTotals, r.revenueTotals, r.items);
              SumBy(rows[2..], ColumnValue(2 + k)) == CellValue(rows[1][2 + k])
  {
    var r := MonthlyRevenue(cal, pages, fromDate, toDate, group, sort);
    if r.Report? && k < |r.months| {
      ItemColumn(r.months, r.pdTotals, r.revenueTotals, r.items, k);
      ItemsAddUp(cal, pages, fromDate, toDate, group, sort, r.months[k]);
    }
  }

  /** Each escaped cell is its text with every bar escaped: unescaping gives the text back. */
  lemma EscapedRows(rows: seq<seq<Cell>>, fixed: real -> string, linkText: Link -> string)
    ensures var body := MapSeq(EscapeRow(fixed, linkText), rows);
            forall i :: 0 <= i < |rows| ==>
              |body[i]| == |rows[i]|
              && forall j :: 0 <= j < |rows[i]| ==>
                   BarsEscaped(body[i][j]) && Unescape(body[i][j]) == CellText(fixed, linkText, rows[i][j])
  {
    var body := MapSeq(EscapeRow(fixed, linkText), rows);
    forall i | 0 <= i < |rows|
      ensures |body[i]| == |rows[i]|
      ensures forall j :: 0 <= j < |rows[i]| ==>
                BarsEscaped(body[i][j]) && Unescape(body[i][j]) == CellText(fixed, linkText, rows[i][j])
    {
      MapSeqAt(EscapeRow(fixed, linkText), rows, i);
      forall j | 0 <= j < |rows[i]|
        ensures BarsEscaped(body[i][j]) && Unescape(body[i][j]) == CellText(fixed, linkText, rows[i][j])
      {
        MapSeqAt(EscapeCell(fixed, linkText), rows[i], j);
        EscapeShape(CellText(fixed, linkText, rows[i][j]));
        EscapeRoundTrip(CellText(fixed, linkText, rows[i][j]));
      }
    }
  }

  /** The table of a report: a header and an alignment per column, and each body cell its
      cell's text with every bar escaped. */
  lemma TableCells(r: Revenue, monthLabel: string -> string, fixed: real -> string, linkText: Link -> string)
    requires r.Report?
    ensures var t := TableOf(r, monthLabel, fixed, linkText);
            var rows := Body(r.months, r.pdTotals, r.revenueTotals, r.items);
            t.Table? && |t.head| == |t.alignment| == 2 + |r.months| && |t.body| == |rows|
            && forall i :: 0 <= i < |rows| ==>
                 |t.body[i]| == |rows[i]|
                 && forall j :: 0 <= j < |rows[i]| ==>
                      BarsEscaped(t.body[i][j]) && Unescape(t.body[i][j]) == CellText(fixed, linkText, rows[i][j])
  {
    var rows := Body(r.months, r.pdTotals, r.revenueTotals, r.items);
    EscapedTableShape(r.months, rows, monthLabel, fixed, linkText);
  }

  /** A table with the month columns: one header and one alignment per column, and each body
      cell the escaped text of its cell. */
  lemma EscapedTableShape(months: seq<string>, rows: seq<seq<Cell>>, monthLabel: string -> string,
                          fixed: real -> string, linkText: Link -> string)
    ensures var t := Table(["Project", "Total"] + MapSeq(monthLabel, months),
                           MapSeq(EscapeRow(fixed, linkText), rows),
                           [Left, Right] + RightAligned(|months|));
            |t.head| == |t.alignment| == 2 + |months| && |t.body| == |rows|
            && forall i :: 0 <= i < |rows| ==>
                 |t.body[i]| == |rows[i]|
                 && forall j :: 0 <= j < |rows[i]| ==>
                      BarsEscaped(t.body[i][j]) && Unescape(t.body[i][j]) == CellText(fixed, linkText, rows[i][j])
  {
    EscapedRows(rows, fixed, linkText);
  }
}
