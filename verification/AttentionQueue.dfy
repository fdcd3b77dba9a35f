/**
 The dashboard's attention queue: rows gathered from four lists, sorted newest first,
 reduced to the newest row of each identifier, at most ten of them.
 */
module AttentionQueue {
  import opened Wrappers

  datatype Kind = Alarm | CommandFailure | JobFailure | Reachability

  /** `at` is the parsed time of the row. */
  datatype Row = Row(id: string, kind: Kind, at: int)

  datatype EventItem = EventItem(id: string, critical: bool, isOpen: bool, occurredAt: int)
  datatype CommandItem = CommandItem(id: string, failed: bool, timedOut: bool, updatedAt: int)
  datatype JobItem = JobItem(id: string, failed: bool, scheduledFor: int)
  datatype GisItem = GisItem(serial: string, lastSeen: Option<int>)

  const MAX_ROWS: nat := 10
  const MAX_REACHABILITY: nat := 3

  // ---- specification ----

  function AlarmRows(items: seq<EventItem>): seq<Row> {
    if items == [] then []
    else
      var last := items[|items| - 1];
      AlarmRows(items[..|items| - 1])
      + (if last.critical && last.isOpen then [Row("alarm-" + last.id, Alarm, last.occurredAt)] else [])
  }

  function CommandRows(items: seq<CommandItem>): seq<Row> {
    if items == [] then []
    else
      var last := items[|items| - 1];
      CommandRows(items[..|items| - 1])
      + (if last.failed || last.timedOut then [Row("cmd-" + last.id, CommandFailure, last.updatedAt)] else [])
  }

  function JobRows(items: seq<JobItem>): seq<Row> {
    if items == [] then []
    else
      var last := items[|items| - 1];
      JobRows(items[..|items| - 1])
      + (if last.failed then [Row("job-" + last.id, JobFailure, last.scheduledFor)] else [])
  }

  /** The meters never seen, of which only the first three become rows. */
  function UnseenRows(items: seq<GisItem>, asOf: int): seq<Row> {
    if items == [] then []
    else
      var last := items[|items| - 1];
      UnseenRows(items[..|items| - 1], asOf)
      + (if last.lastSeen.None? then [Row("reach-" + last.serial, Reachability, asOf)] else [])
  }

  function FirstFew(rows: seq<Row>): seq<Row> {
    if |rows| <= MAX_REACHABILITY then rows else rows[..MAX_REACHABILITY]
  }

  function Gathered(events: seq<EventItem>, commands: seq<CommandItem>, jobs: seq<JobItem>, gis: seq<GisItem>,
      asOf: int): seq<Row> {
    AlarmRows(events) + CommandRows(commands) + JobRows(jobs) + FirstFew(UnseenRows(gis, asOf))
  }

  ghost predicate NewestFirst(rows: seq<Row>) {
    forall i, j :: 0 <= i < j < |rows| ==> rows[i].at >= rows[j].at
  }

  ghost predicate DistinctIds(rows: seq<Row>) {
    forall i, j :: 0 <= i < j < |rows| ==> rows[i].id != rows[j].id
  }

  ghost function Ids(rows: seq<Row>): set<string> {
    set r | r in rows :: r.id
  }

  /** What the queue promises about the rows it was made from. */
  ghost predicate IsAttentionQueue(rows: seq<Row>, result: seq<Row>) {
    && DistinctIds(result) && NewestFirst(result)
    && (forall r :: r in result ==> r in rows)
    && |result| == (if |Ids(rows)| <= 10 then |Ids(rows)| else 10)
    && (forall r, k :: r in rows && k in result && r.id == k.id ==> r.at <= k.at)
    && (forall r, k :: r in rows && k in result && r.id !in Ids(result) ==> r.at <= k.at)
  }

  // ---- what is gathered ----

  lemma {:induction false} AlarmRowsExactly(items: seq<EventItem>, r: Row)
    ensures r in AlarmRows(items) <==>
              exists i :: 0 <= i < |items| && items[i].critical && items[i].isOpen
                          && r == Row("alarm-" + items[i].id, Alarm, items[i].occurredAt)
  {
    if items != [] { AlarmRowsExactly(items[..|items| - 1], r); }
  }

  lemma {:induction false} CommandRowsExactly(items: seq<CommandItem>, r: Row)
    ensures r in CommandRows(items) <==>
              exists i :: 0 <= i < |items| && (items[i].failed || items[i].timedOut)
                          && r == Row("cmd-" + items[i].id, CommandFailure, items[i].updatedAt)
  {
    if items != [] { CommandRowsExactly(items[..|items| - 1], r); }
  }

  lemma {:induction false} JobRowsExactly(items: seq<JobItem>, r: Row)
    ensures r in JobRows(items) <==>
              exists i :: 0 <= i < |items| && items[i].failed
                          && r == Row("job-" + items[i].id, JobFailure, items[i].scheduledFor)
  {
    if items != [] { JobRowsExactly(items[..|items| - 1], r); }
  }

  /** The meters before this one that were never seen. */
  ghost function UnseenBefore(items: seq<GisItem>, i: nat): set<nat> {
    set j: nat | j < i && j < |items| && items[j].lastSeen.None?
  }

  ghost predicate IsUnseenRow(items: seq<GisItem>, asOf: int, i: nat, r: Row) {
    i < |items| && items[i].lastSeen.None? && r == Row("reach-" + items[i].serial, Reachability, asOf)
  }

  lemma UnseenBeforeNext(items: seq<GisItem>, i: nat)
    requires i < |items|
    ensures UnseenBefore(items, i + 1) == UnseenBefore(items, i) + (if items[i].lastSeen.None? then {i} else {})
    ensures |UnseenBefore(items, i + 1)| == |UnseenBefore(items, i)| + (if items[i].lastSeen.None? then 1 else 0)
    ensures UnseenBefore(items[..|items| - 1], i) == UnseenBefore(items, i)
  {
  }

  lemma {:induction false} UnseenCount(items: seq<GisItem>, asOf: int)
    ensures |UnseenRows(items, asOf)| == |UnseenBefore(items, |items|)|
  {
    if items == [] {
      assert UnseenBefore(items, 0) == {};
    } else {
      UnseenCount(items[..|items| - 1], asOf);
      UnseenBeforeNext(items, |items| - 1);
    }
  }

  /** An unseen meter's row stands after those of the unseen meters before it. */
  lemma {:induction false} UnseenRowOf(items: seq<GisItem>, asOf: int, i: nat)
    requires i < |items| && items[i].lastSeen.None?
    ensures var rows, k := UnseenRows(items, asOf), |UnseenBefore(items, i)|;
            k < |rows| && rows[k] == Row("reach-" + items[i].serial, Reachability, asOf)
    decreases |items|
  {
    var less := items[..|items| - 1];
    UnseenBeforeNext(items, i);
    UnseenCount(less, asOf);
    if i < |less| { UnseenRowOf(less, asOf, i); }
  }

  lemma {:induction false} UnseenRowFrom(items: seq<GisItem>, asOf: int, k: nat) returns (i: nat)
    requires k < |UnseenRows(items, asOf)|
    ensures IsUnseenRow(items, asOf, i, UnseenRows(items, asOf)[k]) && |UnseenBefore(items, i)| == k
    decreases |items|
  {
    var less := items[..|items| - 1];
    UnseenCount(less, asOf);
    if k < |UnseenRows(less, asOf)| {
      i := UnseenRowFrom(less, asOf, k);
    } else {
      i := |less|;
    }
    UnseenBeforeNext(items, i);
  }

  lemma FewUnseenExactly(items: seq<GisItem>, asOf: int, r: Row)
    ensures r in FirstFew(UnseenRows(items, asOf)) <==>
              exists i :: 0 <= i < |items| && IsUnseenRow(items, asOf, i, r) && |UnseenBefore(items, i)| < 3
  {
    var rows := UnseenRows(items, asOf);
    if r in FirstFew(rows) {
      var k :| 0 <= k < |FirstFew(rows)| && FirstFew(rows)[k] == r;
      var i := UnseenRowFrom(items, asOf, k);
      assert IsUnseenRow(items, asOf, i, r);
    }
    if i :| 0 <= i < |items| && IsUnseenRow(items, asOf, i, r) && |UnseenBefore(items, i)| < 3 {
      UnseenRowOf(items, asOf, i);
      assert FirstFew(rows)[|UnseenBefore(items, i)|] == r;
    }
  }

  /** Exactly these rows: the open critical alarms, the commands that failed or timed out, the failed
      jobs, and the meters never seen that have fewer than three such meters before them. */
  lemma GatheredExactly(events: seq<EventItem>, commands: seq<CommandItem>, jobs: seq<JobItem>, gis: seq<GisItem>,
      asOf: int, r: Row)
    ensures r in Gathered(events, commands, jobs, gis, asOf) <==>
              || (exists i :: 0 <= i < |events| && events[i].critical && events[i].isOpen
                              && r == Row("alarm-" + events[i].id, Alarm, events[i].occurredAt))
              || (exists i :: 0 <= i < |commands| && (commands[i].failed || commands[i].timedOut)
                              && r == Row("cmd-" + commands[i].id, CommandFailure, commands[i].updatedAt))
              || (exists i :: 0 <= i < |jobs| && jobs[i].failed
                              && r == Row("job-" + jobs[i].id, JobFailure, jobs[i].scheduledFor))
              || (exists i :: 0 <= i < |gis| && IsUnseenRow(gis, asOf, i, r) && |UnseenBefore(gis, i)| < 3)
  {
    hide AlarmRows, CommandRows, JobRows, UnseenRows, FirstFew, IsUnseenRow, UnseenBefore;
    AlarmRowsExactly(events, r);
    CommandRowsExactly(commands, r);
    JobRowsExactly(jobs, r);
    FewUnseenExactly(gis, asOf, r);
  }

  // ---- sorting ----

  /** Insertion after every row that is not older: the stable order of the library sort. */
  function Insert(r: Row, sorted: seq<Row>): (s: seq<Row>)
    ensures multiset(s) == multiset(sorted) + multiset{r}
  {
    if sorted == [] || r.at > sorted[0].at then
      var s := [r] + sorted;
      assert multiset(s) == multiset{r} + multiset(sorted);
      s
    else
      var s := [sorted[0]] + Insert(r, sorted[1..]);
      assert sorted == [sorted[0]] + sorted[1..];
      s
  }

  function SortNewestFirst(rows: seq<Row>): (s: seq<Row>)
    ensures multiset(s) == multiset(rows)
  {
    if rows == [] then []
    else
      assert rows == rows[..|rows| - 1] + [rows[|rows| - 1]];
      Insert(rows[|rows| - 1], SortNewestFirst(rows[..|rows| - 1]))
  }

  lemma {:induction false} InsertSorts(r: Row, sorted: seq<Row>)
    requires NewestFirst(sorted)
    ensures NewestFirst(Insert(r, sorted))
  {
    if sorted != [] && r.at <= sorted[0].at {
      InsertSorts(r, sorted[1..]);
      var t := Insert(r, sorted[1..]);
      forall x | x in t ensures x.at <= sorted[0].at {
        assert x in multiset(t);
      }
    }
  }

  lemma {:induction false} SortSorts(rows: seq<Row>)
    ensures NewestFirst(SortNewestFirst(rows))
    ensures forall r :: r in rows <==> r in SortNewestFirst(rows)
  {
    if rows != [] {
      SortSorts(rows[..|rows| - 1]);
      InsertSorts(rows[|rows| - 1], SortNewestFirst(rows[..|rows| - 1]));
    }
    forall r ensures r in rows <==> r in SortNewestFirst(rows) {
      assert r in multiset(rows) <==> r in multiset(SortNewestFirst(rows));
    }
  }

  /** The rows of one time, in order. */
  function AtTime(rows: seq<Row>, t: int): seq<Row> {
    if rows == [] then []
    else AtTime(rows[..|rows| - 1], t) + (if rows[|rows| - 1].at == t then [rows[|rows| - 1]] else [])
  }

  lemma {:induction false} AtTimeConcat(a: seq<Row>, b: seq<Row>, t: int)
    ensures AtTime(a + b, t) == AtTime(a, t) + AtTime(b, t)
  {
    if b == [] {
      assert a + b == a;
    } else {
      AtTimeConcat(a, b[..|b| - 1], t);
      assert (a + b)[..|a + b| - 1] == a + b[..|b| - 1];
    }
  }

  lemma {:induction false} NoneAtTime(rows: seq<Row>, t: int)
    requires forall r :: r in rows ==> r.at != t
    ensures AtTime(rows, t) == []
  {
    if rows != [] {
      assert rows[|rows| - 1] in rows;
      NoneAtTime(rows[..|rows| - 1], t);
    }
  }

  lemma {:induction false} InsertIsStable(r: Row, sorted: seq<Row>, t: int)
    requires NewestFirst(sorted)
    ensures AtTime(Insert(r, sorted), t) == AtTime(sorted, t) + AtTime([r], t)
  {
    hide AtTime, NewestFirst;
    if sorted == [] || r.at > sorted[0].at {
      AtTimeConcat([r], sorted, t);
      NewerAtOtherTime(r, sorted, t);
    } else {
      assert sorted == [sorted[0]] + sorted[1..];
      assert NewestFirst(sorted[1..]) by { TailIsNewestFirst(sorted); }
      InsertIsStable(r, sorted[1..], t);
      AtTimeConcat([sorted[0]], sorted[1..], t);
      AtTimeConcat([sorted[0]], Insert(r, sorted[1..]), t);
    }
  }

  lemma TailIsNewestFirst(rows: seq<Row>)
    requires NewestFirst(rows) && rows != []
    ensures NewestFirst(rows[1..])
  {
  }

  /** A row newer than all others shares no time with them. */
  lemma NewerAtOtherTime(r: Row, sorted: seq<Row>, t: int)
    requires NewestFirst(sorted) && (sorted == [] || r.at > sorted[0].at)
    ensures AtTime([r], t) + AtTime(sorted, t) == AtTime(sorted, t) + AtTime([r], t)
  {
    if r.at == t {
      NoneAtTime(sorted, t);
    } else {
      NoneAtTime([r], t);
    }
  }

  /** Rows of the same time stay in the order in which they were gathered. */
  lemma {:induction false} SortIsStable(rows: seq<Row>, t: int)
    ensures AtTime(SortNewestFirst(rows), t) == AtTime(rows, t)
  {
    if rows != [] {
      SortIsStable(rows[..|rows| - 1], t);
      SortSorts(rows[..|rows| - 1]);
      InsertIsStable(rows[|rows| - 1], SortNewestFirst(rows[..|rows| - 1]), t);
      AtTimeConcat(rows[..|rows| - 1], [rows[|rows| - 1]], t);
      assert rows == rows[..|rows| - 1] + [rows[|rows| - 1]];
    }
  }

  /** The first row of each identifier. */
  function Firsts(rows: seq<Row>): seq<Row> {
    if rows == [] then []
    else
      var less, last := rows[..|rows| - 1], rows[|rows| - 1];
      Firsts(less) + (if exists i :: 0 <= i < |less| && less[i].id == last.id then [] else [last])
  }

  lemma {:induction false} FirstsPrefix(rows: seq<Row>, i: nat)
    requires i <= |rows|
    ensures Firsts(rows[..i]) <= Firsts(rows)
    decreases |rows|
  {
    if i < |rows| {
      FirstsPrefix(rows[..|rows| - 1], i);
      assert rows[..|rows| - 1][..i] == rows[..i];
    } else {
      assert rows[..i] == rows;
    }
  }

  lemma FirstsNext(rows: seq<Row>, i: nat)
    requires i < |rows|
    ensures Firsts(rows[..i + 1]) == Firsts(rows[..i]) + (if rows[i].id in Ids(rows[..i]) then [] else [rows[i]])
  {
    assert rows[..i + 1][..i] == rows[..i];
  }

  // ---- the queue ----

  method Gather(events: seq<EventItem>, commands: seq<CommandItem>, jobs: seq<JobItem>, gis: seq<GisItem>, asOf: int)
    returns (rows: seq<Row>)
    ensures rows == Gathered(events, commands, jobs, gis, asOf)
  {
    rows := [];
    for i := 0 to |events|
      invariant rows == AlarmRows(events[..i])
    {
      assert events[..i + 1][..i] == events[..i];
      if events[i].critical && events[i].isOpen {
        rows := rows + [Row("alarm-" + events[i].id, Alarm, events[i].occurredAt)];
      }
    }
    assert events[..|events|] == events;
    for i := 0 to |commands|
      invariant rows == AlarmRows(events) + CommandRows(commands[..i])
    {
      assert commands[..i + 1][..i] == commands[..i];
      if commands[i].failed || commands[i].timedOut {
        rows := rows + [Row("cmd-" + commands[i].id, CommandFailure, commands[i].updatedAt)];
      }
    }
    assert commands[..|commands|] == commands;
    for i := 0 to |jobs|
      invariant rows == AlarmRows(events) + CommandRows(commands) + JobRows(jobs[..i])
    {
      assert jobs[..i + 1][..i] == jobs[..i];
      if jobs[i].failed {
        rows := rows + [Row("job-" + jobs[i].id, JobFailure, jobs[i].scheduledFor)];
      }
    }
    assert jobs[..|jobs|] == jobs;
    var reachAdds := 0;
    var i := 0;
    ghost var before := rows;
    while i < |gis|
      invariant 0 <= i <= |gis| && reachAdds <= MAX_REACHABILITY
      invariant rows == before + UnseenRows(gis[..i], asOf) && |UnseenRows(gis[..i], asOf)| == reachAdds
    {
      if reachAdds >= MAX_REACHABILITY { break; }
      assert gis[..i + 1][..i] == gis[..i];
      if gis[i].lastSeen.None? {
        rows := rows + [Row("reach-" + gis[i].serial, Reachability, asOf)];
        reachAdds := reachAdds + 1;
      }
      i := i + 1;
    }
    UnseenPrefix(gis, i, asOf);
    assert gis[..|gis|] == gis;
  }

  /** Rows of a prefix are a prefix of the rows. */
  lemma {:induction false} UnseenPrefix(gis: seq<GisItem>, i: nat, asOf: int)
    requires i <= |gis|
    ensures UnseenRows(gis[..i], asOf) <= UnseenRows(gis, asOf)
    decreases |gis|
  {
    if i < |gis| {
      UnseenPrefix(gis[..|gis| - 1], i, asOf);
      assert gis[..|gis| - 1][..i] == gis[..i];
    } else {
      assert gis[..i] == gis;
    }
  }

  lemma IdsPrefix(rows: seq<Row>, i: nat)
    requires i < |rows|
    ensures Ids(rows[..i + 1]) == Ids(rows[..i]) + {rows[i].id}
  {
    assert rows[..i + 1] == rows[..i] + [rows[i]];
  }

  lemma {:induction false} DistinctCount(rows: seq<Row>)
    requires DistinctIds(rows)
    ensures |Ids(rows)| == |rows|
  {
    if rows != [] {
      var n := |rows| - 1;
      DistinctCount(rows[..n]);
      IdsPrefix(rows, n);
      assert rows[..n + 1] == rows;
      assert rows[n].id !in Ids(rows[..n]);
    }
  }

  /** What the reduction keeps true of the rows it has looked at. */
  ghost predicate Reduced(looked: seq<Row>, result: seq<Row>) {
    && DistinctIds(result) && NewestFirst(result) && Ids(result) == Ids(looked)
    && (forall r :: r in result ==> r in looked)
    && (forall r, k :: r in looked && k in result && r.id == k.id ==> r.at <= k.at)
  }

  lemma IdsAppend(rows: seq<Row>, r: Row)
    ensures Ids(rows + [r]) == Ids(rows) + {r.id}
  {
  }

  lemma ReducedAppends(looked: seq<Row>, r: Row, result: seq<Row>)
    requires Reduced(looked, result) && r.id !in Ids(result) && forall x :: x in looked ==> x.at >= r.at
    ensures Reduced(looked + [r], result + [r])
  {
    hide Ids;
    IdsAppend(looked, r);
    IdsAppend(result, r);
    IdsHold(result);
    IdsHold(looked);
    assert forall x :: x in looked + [r] <==> x in looked || x == r;
  }

  lemma ReducedSkips(looked: seq<Row>, r: Row, result: seq<Row>)
    requires Reduced(looked, result) && r.id in Ids(result) && forall x :: x in looked ==> x.at >= r.at
    ensures Reduced(looked + [r], result)
  {
    hide Ids;
    IdsAppend(looked, r);
    assert forall x :: x in looked + [r] <==> x in looked || x == r;
  }

  lemma IdsHold(rows: seq<Row>)
    ensures forall r :: r in rows ==> r.id in Ids(rows)
  {
  }

  lemma ReducedKeeps(rows: seq<Row>, i: nat, result: seq<Row>)
    requires i < |rows| && NewestFirst(rows) && Reduced(rows[..i], result)
    ensures rows[i].id !in Ids(result) ==> Reduced(rows[..i + 1], result + [rows[i]])
    ensures rows[i].id in Ids(result) ==> Reduced(rows[..i + 1], result)
  {
    hide Reduced, Ids;
    assert rows[..i + 1] == rows[..i] + [rows[i]];
    assert forall x :: x in rows[..i] ==> x.at >= rows[i].at;
    if rows[i].id !in Ids(result) {
      ReducedAppends(rows[..i], rows[i], result);
    } else {
      ReducedSkips(rows[..i], rows[i], result);
    }
  }

  /** Keeping the first row of each identifier of a newest-first list keeps its newest. */
  method Dedupe(rows: seq<Row>) returns (result: seq<Row>)
    requires NewestFirst(rows)
    ensures IsAttentionQueue(rows, result) && result <= Firsts(rows)
  {
    hide Reduced, Ids, Firsts, IsAttentionQueue;
    result := [];
    NothingReduced();
    var seen: set<string> := {};
    var i := 0;
    while i < |rows|
      invariant 0 <= i <= |rows| && |result| < MAX_ROWS
      invariant seen == Ids(result) && Reduced(rows[..i], result)
      invariant result == Firsts(rows[..i])
    {
      var r := rows[i];
      FirstsNext(rows, i);
      ReducedIds(rows[..i], result);
      ReducedKeeps(rows, i, result);
      if r.id !in seen {
        IdsPrefix(result + [r], |result|);
        assert (result + [r])[..|result|] == result && (result + [r])[..|result| + 1] == result + [r];
        seen := seen + {r.id};
        result := result + [r];
        if |result| >= MAX_ROWS {
          FullQueue(rows, i + 1, result);
          FirstsPrefix(rows, i + 1);
          return;
        }
      }
      i := i + 1;
    }
    assert rows[..i] == rows;
    WholeQueue(rows, result);
  }

  lemma NothingReduced()
    ensures Reduced([], []) && Ids([]) == {} && Firsts([]) == []
  {
  }

  lemma ReducedIds(looked: seq<Row>, result: seq<Row>)
    requires Reduced(looked, result)
    ensures Ids(result) == Ids(looked)
  {
  }

  lemma WholeQueue(rows: seq<Row>, result: seq<Row>)
    requires Reduced(rows, result) && |result| < MAX_ROWS
    ensures IsAttentionQueue(rows, result)
  {
    DistinctCount(result);
  }

  /** Stopping at the tenth row loses nothing newer than a kept one. */
  lemma FullQueue(rows: seq<Row>, n: nat, result: seq<Row>)
    requires n <= |rows| && |result| == MAX_ROWS && NewestFirst(rows) && Reduced(rows[..n], result)
    ensures IsAttentionQueue(rows, result)
  {
    DistinctCount(result);
    assert Ids(result) <= Ids(rows);
    SubsetCount(Ids(result), Ids(rows));
    forall r, k | r in rows && k in result && (r.id == k.id || r.id !in Ids(result)) ensures r.at <= k.at {
      if r in rows[..n] {
        assert r.id in Ids(rows[..n]);
      } else {
        assert k in rows[..n];
      }
    }
  }

  lemma SubsetCount(a: set<string>, b: set<string>)
    requires a <= b
    ensures |a| <= |b|
  {
    assert b == a + (b - a);
  }

  method BuildAttentionQueue(events: seq<EventItem>, commands: seq<CommandItem>, jobs: seq<JobItem>,
      gis: seq<GisItem>, asOf: int)
    returns (result: seq<Row>)
    ensures IsAttentionQueue(Gathered(events, commands, jobs, gis, asOf), result)
    ensures result <= Firsts(SortNewestFirst(Gathered(events, commands, jobs, gis, asOf)))
    ensures ReachabilityCount(result) <= 3
  {
    var rows := Gather(events, commands, jobs, gis, asOf);
    SortSorts(rows);
    result := Dedupe(SortNewestFirst(rows));
    SameRows(rows, SortNewestFirst(rows), result);
    FewReachability(events, commands, jobs, gis, asOf, result);
    CountIsIds(result);
  }

  function ReachabilityCount(rows: seq<Row>): nat {
    if rows == [] then 0
    else ReachabilityCount(rows[..|rows| - 1]) + (if rows[|rows| - 1].kind == Reachability then 1 else 0)
  }

  ghost function ReachabilityIds(rows: seq<Row>): set<string> {
    set r | r in rows && r.kind == Reachability :: r.id
  }

  lemma {:induction false} CountIsIds(rows: seq<Row>)
    requires DistinctIds(rows)
    ensures ReachabilityCount(rows) == |ReachabilityIds(rows)|
  {
    if rows != [] {
      var n := |rows| - 1;
      CountIsIds(rows[..n]);
      assert rows == rows[..n] + [rows[n]];
      LastIsNew(rows[..n], rows[n]);
    }
  }

  lemma LastIsNew(rows: seq<Row>, last: Row)
    requires forall r :: r in rows ==> r.id != last.id
    ensures ReachabilityIds(rows + [last])
            == ReachabilityIds(rows) + (if last.kind == Reachability then {last.id} else {})
    ensures last.id !in ReachabilityIds(rows)
  {
    var ids := ReachabilityIds(rows + [last]);
    forall x | x in ReachabilityIds(rows) ensures x in ids {
      var r :| r in rows && r.kind == Reachability && r.id == x;
      assert r in rows + [last];
    }
    if last.kind == Reachability { assert last in rows + [last]; }
  }

  lemma SameRows(rows: seq<Row>, sorted: seq<Row>, result: seq<Row>)
    requires IsAttentionQueue(sorted, result) && forall r :: r in rows <==> r in sorted
    ensures IsAttentionQueue(rows, result)
  {
    assert Ids(rows) == Ids(sorted);
  }

  lemma {:induction false} KindsOfRows(events: seq<EventItem>, commands: seq<CommandItem>, jobs: seq<JobItem>)
    ensures forall r :: r in AlarmRows(events) + CommandRows(commands) + JobRows(jobs) ==> r.kind != Reachability
    decreases |events| + |commands| + |jobs|
  {
    if events != [] { KindsOfRows(events[..|events| - 1], commands, jobs); }
    if commands != [] { KindsOfRows(events, commands[..|commands| - 1], jobs); }
    if jobs != [] { KindsOfRows(events, commands, jobs[..|jobs| - 1]); }
  }

  lemma FewReachability(events: seq<EventItem>, commands: seq<CommandItem>, jobs: seq<JobItem>, gis: seq<GisItem>,
      asOf: int, result: seq<Row>)
    requires forall r :: r in result ==> r in Gathered(events, commands, jobs, gis, asOf)
    ensures |ReachabilityIds(result)| <= MAX_REACHABILITY
  {
    KindsOfRows(events, commands, jobs);
    var few := FirstFew(UnseenRows(gis, asOf));
    var ids := ReachabilityIds(result);
    forall x | x in ids ensures x in Ids(few) {
      var r :| r in result && r.kind == Reachability && r.id == x;
      assert r in few;
    }
    SubsetCount(ids, Ids(few));
    IdsCount(few);
  }

  lemma {:induction false} IdsCount(rows: seq<Row>)
    ensures |Ids(rows)| <= |rows|
  {
    if rows != [] {
      var n := |rows| - 1;
      IdsCount(rows[..n]);
      IdsPrefix(rows, n);
      assert rows[..n + 1] == rows;
    }
  }
}
