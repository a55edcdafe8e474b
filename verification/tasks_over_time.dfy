/**
 * The "tasks over time" chart: one bar pair per calendar day, counting the
 * tasks created on that day and the done tasks completed on it, sorted by
 * day and cut to the last fourteen. Formatting an instant as a day label and
 * reading a label back as an instant depend on the browser's clock and
 * locale; both are parameters.
 */
module TasksOverTime {
  import opened Wrappers
  import opened Json
  import opened Seqs
  import opened Domain

  /** One bar pair of the chart. */
  datatype Bucket = Bucket(date: string, created: nat, completed: nat)

  /** No two buckets share a day label. */
  predicate Distinct(bs: seq<Bucket>) {
    forall i, j :: 0 <= i < j < |bs| ==> bs[i].date != bs[j].date
  }

  /** Every bar counts at least one task. */
  predicate NoEmptyBar(bs: seq<Bucket>) {
    forall i :: 0 <= i < |bs| ==> bs[i].created + bs[i].completed > 0
  }

  function Dates(bs: seq<Bucket>): set<string> {
    set i | 0 <= i < |bs| :: bs[i].date
  }

  /** The position of the bucket labelled `d`, if any. */
  function Find(bs: seq<Bucket>, d: string): (r: Option<nat>)
    ensures r.Some? ==> r.value < |bs| && bs[r.value].date == d
    ensures r.None? ==> d !in Dates(bs)
  {
    if bs == [] then None
    else if bs[|bs| - 1].date == d then Some(|bs| - 1)
    else Find(bs[..|bs| - 1], d)
  }

  /** The created count shown for day `d`, zero when it has no bucket. */
  function CreatedOn(bs: seq<Bucket>, d: string): nat {
    match Find(bs, d)
    case Some(i) => bs[i].created
    case None => 0
  }

  /** The completed count shown for day `d`, zero when it has no bucket. */
  function CompletedOn(bs: seq<Bucket>, d: string): nat {
    match Find(bs, d)
    case Some(i) => bs[i].completed
    case None => 0
  }

  function TotalCreated(bs: seq<Bucket>): nat {
    if bs == [] then 0 else TotalCreated(bs[..|bs| - 1]) + bs[|bs| - 1].created
  }

  function TotalCompleted(bs: seq<Bucket>): nat {
    if bs == [] then 0 else TotalCompleted(bs[..|bs| - 1]) + bs[|bs| - 1].completed
  }

  /**
   * Adds to the bucket labelled `d`, opening an empty one on the end first
   * when the day has none yet.
   */
  function Bump(bs: seq<Bucket>, d: string, created: nat, completed: nat): (r: seq<Bucket>)
    requires Distinct(bs)
    ensures Distinct(r) && Dates(r) == Dates(bs) + {d}
    ensures forall e :: CreatedOn(r, e) == CreatedOn(bs, e) + (if e == d then created else 0)
    ensures forall e :: CompletedOn(r, e) == CompletedOn(bs, e) + (if e == d then completed else 0)
    ensures TotalCreated(r) == TotalCreated(bs) + created
    ensures TotalCompleted(r) == TotalCompleted(bs) + completed
    ensures NoEmptyBar(bs) && created + completed > 0 ==> NoEmptyBar(r)
  {
    match Find(bs, d)
    case Some(i) =>
      var r := bs[i := Bucket(d, bs[i].created + created, bs[i].completed + completed)];
      BumpInPlace(bs, i, d, created, completed);
      r
    case None =>
      var r := bs + [Bucket(d, created, completed)];
      BumpAtEnd(bs, d, created, completed);
      r
  }

  lemma FindIsUnique(bs: seq<Bucket>, i: nat, d: string)
    requires Distinct(bs) && i < |bs| && bs[i].date == d
    ensures Find(bs, d) == Some(i)
  {
    if i < |bs| - 1 {
      FindIsUnique(bs[..|bs| - 1], i, d);
    }
  }

  lemma {:induction false} TotalsAfterUpdate(bs: seq<Bucket>, i: nat, b: Bucket)
    requires i < |bs|
    ensures TotalCreated(bs[i := b]) + bs[i].created == TotalCreated(bs) + b.created
    ensures TotalCompleted(bs[i := b]) + bs[i].completed == TotalCompleted(bs) + b.completed
  {
    var n := |bs| - 1;
    if i < n {
      TotalsAfterUpdate(bs[..n], i, b);
      assert bs[i := b][..n] == bs[..n][i := b];
    } else {
      assert bs[i := b][..n] == bs[..n];
    }
  }

  lemma BumpInPlace(bs: seq<Bucket>, i: nat, d: string, created: nat, completed: nat)
    requires Distinct(bs) && i < |bs| && bs[i].date == d
    ensures var r := bs[i := Bucket(d, bs[i].created + created, bs[i].completed + completed)];
            && Distinct(r) && Dates(r) == Dates(bs) + {d}
            && (forall e :: CreatedOn(r, e) == CreatedOn(bs, e) + (if e == d then created else 0))
            && (forall e :: CompletedOn(r, e) == CompletedOn(bs, e) + (if e == d then completed else 0))
            && TotalCreated(r) == TotalCreated(bs) + created
            && TotalCompleted(r) == TotalCompleted(bs) + completed
  {
    var r := bs[i := Bucket(d, bs[i].created + created, bs[i].completed + completed)];
    assert forall k :: 0 <= k < |r| ==> r[k].date == bs[k].date;
    assert Dates(r) == Dates(bs);
    forall e
      ensures CreatedOn(r, e) == CreatedOn(bs, e) + (if e == d then created else 0)
      ensures CompletedOn(r, e) == CompletedOn(bs, e) + (if e == d then completed else 0)
    {
      match Find(bs, e)
      case Some(k) =>
        FindIsUnique(r, k, e);
      case None =>
        assert e !in Dates(r);
    }
    TotalsAfterUpdate(bs, i, r[i]);
  }

  lemma BumpAtEnd(bs: seq<Bucket>, d: string, created: nat, completed: nat)
    requires Distinct(bs) && d !in Dates(bs)
    ensures var r := bs + [Bucket(d, created, completed)];
            && Distinct(r) && Dates(r) == Dates(bs) + {d}
            && (forall e :: CreatedOn(r, e) == CreatedOn(bs, e) + (if e == d then created else 0))
            && (forall e :: CompletedOn(r, e) == CompletedOn(bs, e) + (if e == d then completed else 0))
            && TotalCreated(r) == TotalCreated(bs) + created
            && TotalCompleted(r) == TotalCompleted(bs) + completed
  {
    var r := bs + [Bucket(d, created, completed)];
    assert r[..|r| - 1] == bs;
    forall i, j | 0 <= i < j < |r|
      ensures r[i].date != r[j].date
    {
      if j == |r| - 1 {
        assert bs[i].date in Dates(bs);
      }
    }
    assert Dates(r) == Dates(bs) + {d} by {
      forall e | e in Dates(r)
        ensures e in Dates(bs) + {d}
      {
        var k :| 0 <= k < |r| && r[k].date == e;
        if k < |bs| {
          assert bs[k].date == e;
        }
      }
      forall e | e in Dates(bs)
        ensures e in Dates(r)
      {
        var k :| 0 <= k < |bs| && bs[k].date == e;
        assert r[k].date == e;
      }
      assert r[|bs|].date == d;
    }
  }

  /** The creation day of a task, as the chart labels it. */
  function CreatedOnDay(dayOf: int -> string, d: string): Task -> bool {
    (t: Task) => dayOf(t.createdAt) == d
  }

  /** The done tasks whose completion time falls on day `d`. */
  function CompletedOnDay(dayOf: int -> string, d: string): Task -> bool {
    (t: Task) => t.status == Str("done") && dayOf(CompletionTime(t)) == d
  }

  /** One task of the forEach: a created mark on its creation day, and for a done task a completed mark on its completion day. */
  function Record(bs: seq<Bucket>, t: Task, dayOf: int -> string): (r: seq<Bucket>)
    requires Distinct(bs)
    ensures Distinct(r)
    ensures forall d :: CreatedOn(r, d) == CreatedOn(bs, d) + (if CreatedOnDay(dayOf, d)(t) then 1 else 0)
    ensures forall d :: CompletedOn(r, d) == CompletedOn(bs, d) + (if CompletedOnDay(dayOf, d)(t) then 1 else 0)
    ensures TotalCreated(r) == TotalCreated(bs) + 1
    ensures TotalCompleted(r) == TotalCompleted(bs) + (if WithStatus(Done)(t) then 1 else 0)
    ensures NoEmptyBar(bs) ==> NoEmptyBar(r)
  {
    var withCreated := Bump(bs, dayOf(t.createdAt), 1, 0);
    var r := if t.status == Str("done") then Bump(withCreated, dayOf(CompletionTime(t)), 0, 1) else withCreated;
    MarksCount(bs, t, dayOf, withCreated, r);
    r
  }

  /** The two marks of one task change the per-day and total counts by exactly that task's indicators. */
  lemma MarksCount(bs: seq<Bucket>, t: Task, dayOf: int -> string, withCreated: seq<Bucket>, r: seq<Bucket>)
    requires Distinct(bs)
    requires withCreated == Bump(bs, dayOf(t.createdAt), 1, 0)
    requires r == if t.status == Str("done") then Bump(withCreated, dayOf(CompletionTime(t)), 0, 1) else withCreated
    ensures Distinct(r)
    ensures forall d :: CreatedOn(r, d) == CreatedOn(bs, d) + (if CreatedOnDay(dayOf, d)(t) then 1 else 0)
    ensures forall d :: CompletedOn(r, d) == CompletedOn(bs, d) + (if CompletedOnDay(dayOf, d)(t) then 1 else 0)
    ensures TotalCreated(r) == TotalCreated(bs) + 1
    ensures TotalCompleted(r) == TotalCompleted(bs) + (if WithStatus(Done)(t) then 1 else 0)
  {
    var created, finished, done := dayOf(t.createdAt), dayOf(CompletionTime(t)), t.status == Str("done");
    if done {
      BumpTwice(bs, created, finished, withCreated, r);
    }
    assert WithStatus(Done)(t) == done;
    forall d
      ensures CreatedOn(r, d) == CreatedOn(bs, d) + (if CreatedOnDay(dayOf, d)(t) then 1 else 0)
      ensures CompletedOn(r, d) == CompletedOn(bs, d) + (if CompletedOnDay(dayOf, d)(t) then 1 else 0)
    {
      assert CreatedOnDay(dayOf, d)(t) == (created == d);
      assert CompletedOnDay(dayOf, d)(t) == (done && finished == d);
    }
  }

  /** A created mark on one day, then a completed mark on another. */
  lemma BumpTwice(bs: seq<Bucket>, created: string, finished: string, withCreated: seq<Bucket>, r: seq<Bucket>)
    requires Distinct(bs)
    requires withCreated == Bump(bs, created, 1, 0)
    requires r == Bump(withCreated, finished, 0, 1)
    ensures forall d :: CreatedOn(r, d) == CreatedOn(bs, d) + (if created == d then 1 else 0)
    ensures forall d :: CompletedOn(r, d) == CompletedOn(bs, d) + (if finished == d then 1 else 0)
  {
    forall d
      ensures CreatedOn(r, d) == CreatedOn(bs, d) + (if created == d then 1 else 0)
      ensures CompletedOn(r, d) == CompletedOn(bs, d) + (if finished == d then 1 else 0)
    {
      assert CreatedOn(withCreated, d) == CreatedOn(bs, d) + (if created == d then 1 else 0);
      assert CompletedOn(withCreated, d) == CompletedOn(bs, d);
    }
  }

  /** The buckets after the forEach over `tasks`, in the order the days were first met. */
  function Group(tasks: seq<Task>, dayOf: int -> string): (r: seq<Bucket>)
    ensures Distinct(r) && NoEmptyBar(r)
  {
    if tasks == [] then [] else Record(Group(tasks[..|tasks| - 1], dayOf), tasks[|tasks| - 1], dayOf)
  }

  /**
   * Each day's bars count exactly the tasks created on it and the done tasks
   * completed on it; the bars together count every task once as created and
   * every done task once as completed.
   */
  lemma {:induction false} GroupCountsTasks(tasks: seq<Task>, dayOf: int -> string)
    ensures var bs := Group(tasks, dayOf);
            && (forall d :: CreatedOn(bs, d) == Count(tasks, CreatedOnDay(dayOf, d)))
            && (forall d :: CompletedOn(bs, d) == Count(tasks, CompletedOnDay(dayOf, d)))
            && TotalCreated(bs) == |tasks|
            && TotalCompleted(bs) == Count(tasks, WithStatus(Done))
  {
    if tasks != [] {
      var n := |tasks| - 1;
      var prefix, t := tasks[..n], tasks[n];
      assert tasks == prefix + [t];
      GroupCountsTasks(prefix, dayOf);
      assert Group(tasks, dayOf) == Record(Group(prefix, dayOf), t, dayOf);
      forall d
        ensures CreatedOn(Group(tasks, dayOf), d) == Count(tasks, CreatedOnDay(dayOf, d))
        ensures CompletedOn(Group(tasks, dayOf), d) == Count(tasks, CompletedOnDay(dayOf, d))
      {
        CountSnoc(prefix, t, CreatedOnDay(dayOf, d));
        CountSnoc(prefix, t, CompletedOnDay(dayOf, d));
      }
      CountSnoc(prefix, t, WithStatus(Done));
    }
  }

  /** Ordered by the instant each day label reads back as. */
  predicate SortedBy(bs: seq<Bucket>, when: string -> int) {
    forall i, j :: 0 <= i < j < |bs| ==> when(bs[i].date) <= when(bs[j].date)
  }

  /** Each bucket is no later than the next one. */
  predicate Chained(bs: seq<Bucket>, when: string -> int) {
    forall i :: 0 <= i < |bs| - 1 ==> when(bs[i].date) <= when(bs[i + 1].date)
  }

  /** Neighbours in order make the whole list ordered. */
  lemma {:induction false} ChainedIsSorted(bs: seq<Bucket>, when: string -> int)
    requires Chained(bs, when)
    ensures SortedBy(bs, when)
  {
    if bs != [] {
      ChainedIsSorted(bs[1..], when);
      forall j | 0 < j < |bs|
        ensures when(bs[0].date) <= when(bs[j].date)
      {
        if j > 1 {
          assert bs[1..][0] == bs[1] && bs[1..][j - 1] == bs[j];
        }
      }
    }
  }

  /** Places `b` after every bucket that is not later than it, keeping equal days in their order. */
  function Insert(b: Bucket, bs: seq<Bucket>, when: string -> int): (r: seq<Bucket>)
    requires Chained(bs, when)
    ensures Chained(r, when)
    ensures multiset(r) == multiset(bs) + multiset{b}
    ensures |r| == |bs| + 1 && (r[0] == b || (bs != [] && r[0] == bs[0]))
  {
    if bs == [] || when(b.date) < when(bs[0].date) then [b] + bs
    else
      var rest := Insert(b, bs[1..], when);
      assert bs == [bs[0]] + bs[1..];
      [bs[0]] + rest
  }

  /** The `sort` by day: a reordering of the buckets, earliest first. */
  function SortByDay(bs: seq<Bucket>, when: string -> int): (r: seq<Bucket>)
    ensures Chained(r, when) && SortedBy(r, when)
    ensures multiset(r) == multiset(bs)
  {
    if bs == [] then []
    else
      assert bs == bs[..|bs| - 1] + [bs[|bs| - 1]];
      var r := Insert(bs[|bs| - 1], SortByDay(bs[..|bs| - 1], when), when);
      ChainedIsSorted(r, when);
      r
  }

  /** `slice(-14)`: the last fourteen elements, or all of them when there are fewer. */
  function LastFourteen(bs: seq<Bucket>): (r: seq<Bucket>)
    ensures |r| == if |bs| < 14 then |bs| else 14
    ensures bs == bs[..|bs| - |r|] + r
  {
    if |bs| <= 14 then bs else bs[|bs| - 14..]
  }

  /** The sorted and cut list of bars for a list of buckets. */
  function Latest(bs: seq<Bucket>, when: string -> int): (r: seq<Bucket>)
    ensures SortedBy(r, when)
    ensures |r| == if |bs| < 14 then |bs| else 14
    ensures multiset(r) <= multiset(bs)
    ensures |bs| <= 14 ==> multiset(r) == multiset(bs)
    ensures forall b, c :: b in bs && b !in r && c in r ==> when(b.date) <= when(c.date)
  {
    var sorted := SortByDay(bs, when);
    var r := LastFourteen(sorted);
    DroppedAreEarlier(bs, sorted, |sorted| - |r|, when);
    r
  }

  /** Cutting a sorted list leaves a part of it, and everything cut off is no later than anything kept. */
  lemma DroppedAreEarlier(bs: seq<Bucket>, sorted: seq<Bucket>, k: nat, when: string -> int)
    requires multiset(sorted) == multiset(bs) && k <= |sorted| && SortedBy(sorted, when)
    ensures multiset(sorted[k..]) <= multiset(bs)
    ensures forall b, c :: b in bs && b !in sorted[k..] && c in sorted[k..] ==> when(b.date) <= when(c.date)
  {
    assert sorted == sorted[..k] + sorted[k..];
    SameMembers(sorted, bs);
    forall b, c | b in bs && b !in sorted[k..] && c in sorted[k..]
      ensures when(b.date) <= when(c.date)
    {
      var i :| 0 <= i < |sorted| && sorted[i] == b;
      var j :| 0 <= j < |sorted| - k && sorted[k..][j] == c;
    }
  }

  /**
   * `chartData`: nothing for a missing or empty list; otherwise the day
   * buckets sorted by day, the latest fourteen of them.
   */
  function ChartData(tasks: Option<seq<Task>>, dayOf: int -> string, when: string -> int): (r: seq<Bucket>)
    ensures tasks.None? || tasks.value == [] ==> r == []
    ensures tasks.Some? && tasks.value != [] ==> r == Latest(Group(tasks.value, dayOf), when)
    ensures SortedBy(r, when) && |r| <= 14 && NoEmptyBar(r)
    ensures tasks.Some? ==> var bs := Group(tasks.value, dayOf);
              && multiset(r) <= multiset(bs)
              && |r| == (if |bs| < 14 then |bs| else 14)
              && forall b, c :: b in bs && b !in r && c in r ==> when(b.date) <= when(c.date)
  {
    if tasks.None? then []
    else if tasks.value == [] then
      assert Group(tasks.value, dayOf) == [];
      []
    else
      var bs := Group(tasks.value, dayOf);
      var r := Latest(bs, when);
      KeptBarsAreNotEmpty(bs, r);
      r
  }

  /** Bars taken from a list without empty bars are not empty either. */
  lemma KeptBarsAreNotEmpty(bs: seq<Bucket>, r: seq<Bucket>)
    requires NoEmptyBar(bs) && multiset(r) <= multiset(bs)
    ensures NoEmptyBar(r)
  {
    forall i | 0 <= i < |r|
      ensures r[i].created + r[i].completed > 0
    {
      assert r[i] in multiset(bs);
      var j :| 0 <= j < |bs| && bs[j] == r[i];
    }
  }

  /**
   * Every bar shown belongs to a day some task was created or completed on,
   * and shows that day's counts of created and completed tasks.
   */
  lemma ChartShowsDayCounts(tasks: seq<Task>, dayOf: int -> string, when: string -> int, b: Bucket)
    requires b in ChartData(Some(tasks), dayOf, when)
    ensures b.created == Count(tasks, CreatedOnDay(dayOf, b.date))
    ensures b.completed == Count(tasks, CompletedOnDay(dayOf, b.date))
    ensures b.created + b.completed > 0
  {
    var bs := Group(tasks, dayOf);
    ShownBarIsGrouped(tasks, dayOf, when, b);
    var i :| 0 <= i < |bs| && bs[i] == b;
    FindIsUnique(bs, i, b.date);
    assert CreatedOn(bs, b.date) == b.created && CompletedOn(bs, b.date) == b.completed;
    GroupCountsTasks(tasks, dayOf);
  }

  lemma ShownBarIsGrouped(tasks: seq<Task>, dayOf: int -> string, when: string -> int, b: Bucket)
    requires b in ChartData(Some(tasks), dayOf, when)
    ensures b in Group(tasks, dayOf)
  {
    assert b in multiset(ChartData(Some(tasks), dayOf, when));
    assert b in multiset(Group(tasks, dayOf));
  }
}
