/**
 * The analytics page: the filter bar narrowing the cached tasks by priority,
 * status and creation date, and the summary figures computed from what
 * remains. The clock enters as the cut-off instants of the date ranges.
 */
module AnalyticsPage {
  import opened Wrappers
  import opened Json
  import opened Seqs
  import opened Domain

  /** The filter bar: each field is "all" or one value to match exactly. */
  datatype Filters = Filters(dateRange: string, priority: string, status: string)

  /** The instants (milliseconds) the date ranges start at: today's midnight, a week ago, a month ago. */
  datatype Cutoffs = Cutoffs(todayStart: int, weekAgo: int, monthAgo: int)

  /** The start of the chosen date range, `None` for a range that does not filter. */
  function RangeStart(f: Filters, c: Cutoffs): Option<int> {
    if f.dateRange == "today" then Some(c.todayStart)
    else if f.dateRange == "week" then Some(c.weekAgo)
    else if f.dateRange == "month" then Some(c.monthAgo)
    else None
  }

  function HasPriority(priority: string): Task -> bool {
    (t: Task) => t.priority == Str(priority)
  }

  function HasStatus(status: string): Task -> bool {
    (t: Task) => t.status == Str(status)
  }

  function CreatedSince(start: int): Task -> bool {
    (t: Task) => t.createdAt >= start
  }

  /** The tasks whose completion time, `updatedAt || createdAt`, is at or after `start`. */
  function CompletedSince(start: int): Task -> bool {
    (t: Task) => CompletionTime(t) >= start
  }

  /** A task passes the filter bar when it passes each of the three filters. */
  function Passes(f: Filters, c: Cutoffs): Task -> bool {
    (t: Task) =>
      && (f.priority == "all" || t.priority == Str(f.priority))
      && (f.status == "all" || t.status == Str(f.status))
      && (RangeStart(f, c).None? || t.createdAt >= RangeStart(f, c).value)
  }

  /**
   * `filteredTasks`: the priority filter, then the status filter, then the
   * date filter, each skipped when it is "all" (or, for the date, any range
   * other than today, week and month). The chain keeps exactly the tasks that
   * pass all three, in their order.
   */
  function FilteredTasks(tasks: Option<seq<Task>>, f: Filters, c: Cutoffs): (r: seq<Task>)
    ensures r == Filter(tasks.GetOr([]), Passes(f, c))
    ensures forall t :: t in r <==> t in tasks.GetOr([]) && Passes(f, c)(t)
  {
    if tasks.None? || tasks.value == [] then []
    else
      var all := tasks.value;
      var byPriority := if f.priority != "all" then Filter(all, HasPriority(f.priority)) else all;
      var byStatus := if f.status != "all" then Filter(byPriority, HasStatus(f.status)) else byPriority;
      var r := if RangeStart(f, c).Some? then Filter(byStatus, CreatedSince(RangeStart(f, c).value)) else byStatus;
      ChainIsOneFilter(all, f, c);
      r
  }

  /** The three optional filters in a row are one filter by `Passes`. */
  lemma ChainIsOneFilter(all: seq<Task>, f: Filters, c: Cutoffs)
    ensures var byPriority := if f.priority != "all" then Filter(all, HasPriority(f.priority)) else all;
            var byStatus := if f.status != "all" then Filter(byPriority, HasStatus(f.status)) else byPriority;
            (if RangeStart(f, c).Some? then Filter(byStatus, CreatedSince(RangeStart(f, c).value)) else byStatus)
              == Filter(all, Passes(f, c))
  {
    var pp := (t: Task) => f.priority == "all" || t.priority == Str(f.priority);
    var sp := (t: Task) => f.status == "all" || t.status == Str(f.status);
    var dp := (t: Task) => RangeStart(f, c).None? || t.createdAt >= RangeStart(f, c).value;
    var ps := (t: Task) => pp(t) && sp(t);
    var byPriority := if f.priority != "all" then Filter(all, HasPriority(f.priority)) else all;
    assert byPriority == Filter(all, pp) by {
      if f.priority == "all" {
        FilterAll(all, pp);
      } else {
        FilterTwice(all, pp, (t: Task) => true, HasPriority(f.priority));
        FilterAll(Filter(all, pp), (t: Task) => true);
      }
    }
    var byStatus := if f.status != "all" then Filter(byPriority, HasStatus(f.status)) else byPriority;
    assert byStatus == Filter(all, ps) by {
      if f.status == "all" {
        FilterAll(byPriority, sp);
        FilterTwice(all, pp, sp, ps);
      } else {
        FilterTwice(all, pp, HasStatus(f.status), ps);
      }
    }
    if RangeStart(f, c).Some? {
      FilterTwice(all, ps, CreatedSince(RangeStart(f, c).value), Passes(f, c));
    } else {
      FilterAll(byStatus, dp);
      FilterTwice(all, ps, dp, Passes(f, c));
    }
  }

  /** With every filter at "all" the page shows every task, in order. */
  lemma AllFiltersKeepEverything(tasks: seq<Task>, c: Cutoffs)
    ensures FilteredTasks(Some(tasks), Filters("all", "all", "all"), c) == tasks
  {
    FilterAll(tasks, Passes(Filters("all", "all", "all"), c));
  }

  /** The figures shown on the page. */
  datatype Figures = Figures(total: nat, breakdown: Breakdown, createdToday: nat, completedToday: nat, highPriority: nat)

  /**
   * `analyticsData` for the filtered tasks and today's midnight: the count,
   * the per-value breakdown, the tasks created since midnight, the done tasks
   * whose completion time is since midnight, and the high-priority count.
   */
  function AnalyticsData(filtered: seq<Task>, today: int): (a: Figures)
    ensures a.total == |filtered| && a.breakdown == Tally(filtered)
    ensures a.highPriority == a.breakdown.byPriority.high
    ensures a.createdToday == Count(filtered, CreatedSince(today)) <= a.total
    ensures a.completedToday == Count(Filter(filtered, WithStatus(Done)), CompletedSince(today))
    ensures a.completedToday <= a.breakdown.byStatus.done
    ensures a.breakdown.byPriority.Sum() <= a.total && a.breakdown.byStatus.Sum() <= a.total
  {
    var b := Tally(filtered);
    var doneToday := (t: Task) => t.status == Str("done") && CompletionTime(t) >= today;
    FilterTwice(filtered, WithStatus(Done), CompletedSince(today), doneToday);
    CountMono(filtered, doneToday, WithStatus(Done));
    CountMono(filtered, CreatedSince(today), (t: Task) => true);
    CountAll(filtered, (t: Task) => true);
    Figures(|filtered|, b, Count(filtered, CreatedSince(today)), Count(filtered, doneToday), b.byPriority.high)
  }

  /** The tasks created today and those created before midnight make up the total. */
  lemma CreatedTodaySplitsTotal(filtered: seq<Task>, today: int)
    ensures AnalyticsData(filtered, today).createdToday + Count(filtered, (t: Task) => t.createdAt < today)
            == |filtered|
  {
    CountComplement(filtered, CreatedSince(today), (t: Task) => t.createdAt < today);
  }

  /**
   * One more task raises the created-today figure exactly when it was created
   * since midnight, and the completed-today figure exactly when it is done with
   * a completion time since midnight.
   */
  lemma TodayFiguresSnoc(filtered: seq<Task>, t: Task, today: int)
    ensures var before, after := AnalyticsData(filtered, today), AnalyticsData(filtered + [t], today);
            && after.createdToday == before.createdToday + (if t.createdAt >= today then 1 else 0)
            && after.completedToday == before.completedToday
               + (if t.status == Str("done") && CompletionTime(t) >= today then 1 else 0)
  {
    CountSnoc(filtered, t, CreatedSince(today));
    DoneSinceSnoc(filtered, t, today);
  }

  /** The done tasks completed since `today`, counted after one more task. */
  lemma DoneSinceSnoc(filtered: seq<Task>, t: Task, today: int)
    ensures Count(Filter(filtered + [t], WithStatus(Done)), CompletedSince(today))
            == Count(Filter(filtered, WithStatus(Done)), CompletedSince(today))
               + (if t.status == Str("done") && CompletionTime(t) >= today then 1 else 0)
  {
    var done := Filter(filtered, WithStatus(Done));
    FilterAppend(filtered, [t], WithStatus(Done));
    if WithStatus(Done)(t) {
      assert Filter([t], WithStatus(Done)) == [t];
      CountSnoc(done, t, CompletedSince(today));
    } else {
      assert Filter([t], WithStatus(Done)) == [];
      assert done + [] == done;
    }
  }

  /** Filtering to today's tasks makes every shown task one created today. */
  lemma TodayRangeCountsOnlyToday(tasks: Option<seq<Task>>, f: Filters, c: Cutoffs)
    requires f.dateRange == "today"
    ensures var a := AnalyticsData(FilteredTasks(tasks, f, c), c.todayStart);
            a.createdToday == a.total
  {
    var r := FilteredTasks(tasks, f, c);
    assert forall i :: 0 <= i < |r| ==> CreatedSince(c.todayStart)(r[i]) by {
      assert forall i :: 0 <= i < |r| ==> r[i] in r;
    }
    CountAll(r, CreatedSince(c.todayStart));
  }

  /** Filtering to one status puts every shown task in that status's count and none in the others. */
  lemma StatusFilterConcentrates(tasks: Option<seq<Task>>, f: Filters, c: Cutoffs, s: Status)
    requires f.status == StatusName(s)
    ensures var a := AnalyticsData(FilteredTasks(tasks, f, c), c.todayStart);
            && Count(FilteredTasks(tasks, f, c), WithStatus(s)) == a.total
            && a.breakdown.byStatus.Sum() == a.total
  {
    var r := FilteredTasks(tasks, f, c);
    assert forall i :: 0 <= i < |r| ==> WithStatus(s)(r[i]) by {
      assert forall i :: 0 <= i < |r| ==> r[i] in r;
    }
    assert forall i :: 0 <= i < |r| ==> IsStatusValue(r[i].status);
    CountAll(r, WithStatus(s));
    TallyBounds(r);
  }
}
