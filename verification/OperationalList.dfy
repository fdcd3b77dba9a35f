/**
 The operational recent list: commands of the supported categories, newest request first,
 optionally for one operational family.
 */
module OperationalList {
  import opened Wrappers
  import opened CommandModel
  import opened Json
  import opened Readback
  import opened OperationText

  datatype OperationalFamily = ProfileCaptureFamily | RelayControlFamily | OnDemandReadFamily

  /** A stored command as the list query sees it. */
  datatype Listed = Listed(requestedAt: Time, rows: Rows, documents: Documents)

  function SupportedCategories(filter: Option<OperationalFamily>): set<Category> {
    match filter
    case Some(ProfileCaptureFamily) => {ProfileCapturing}
    case Some(RelayControlFamily) => {RemoteDisconnect, RemoteReconnect}
    case Some(OnDemandReadFamily) => {OnDemandReading}
    case None => {ProfileCapturing, RemoteDisconnect, RemoteReconnect, OnDemandReading}
  }

  predicate IsReadable(x: Listed) {
    Readable(x.rows.command.category, x.documents)
  }

  /** The family the projection of a command names; `None` stands for its refusal. */
  function ProjectedFamily(x: Listed): Option<OperationalFamily> {
    match x.rows.command.category
    case ProfileCapturing =>
      if StatusOf(ProfileCapture, x.rows).Some? then Some(ProfileCaptureFamily) else None
    case OnDemandReading =>
      if StatusOf(OnDemandRead, x.rows).Some? && IsReadable(x) then Some(OnDemandReadFamily) else None
    case RemoteDisconnect => if IsReadable(x) then Some(RelayControlFamily) else None
    case RemoteReconnect => if IsReadable(x) then Some(RelayControlFamily) else None
    case _ => None
  }

  predicate Selected(filter: Option<OperationalFamily>, x: Listed) {
    x.rows.command.category in SupportedCategories(filter)
  }

  function Filter(xs: seq<Listed>, filter: Option<OperationalFamily>): (ys: seq<Listed>)
    ensures forall y :: y in ys <==> y in xs && Selected(filter, y)
  {
    if xs == [] then []
    else if Selected(filter, xs[0]) then [xs[0]] + Filter(xs[1..], filter)
    else Filter(xs[1..], filter)
  }

  function Insert(x: Listed, ys: seq<Listed>): seq<Listed> {
    if ys == [] || x.requestedAt > ys[0].requestedAt then [x] + ys else [ys[0]] + Insert(x, ys[1..])
  }

  /** Newest request first. */
  function Ordered(xs: seq<Listed>): seq<Listed> {
    if xs == [] then [] else Insert(xs[0], Ordered(xs[1..]))
  }

  function Take(xs: seq<Listed>, n: nat): seq<Listed> {
    if |xs| <= n then xs else xs[..n]
  }

  /** The query: filter, order, limit. */
  function RecentItems(store: seq<Listed>, filter: Option<OperationalFamily>, limit: nat): seq<Listed> {
    Take(Ordered(Filter(store, filter)), limit)
  }

  /** The answer: one refused projection refuses the whole list. */
  function RecentList(store: seq<Listed>, filter: Option<OperationalFamily>, limit: nat): Option<seq<Listed>> {
    var items := RecentItems(store, filter, limit);
    if forall x :: x in items ==> ProjectedFamily(x).Some? then Some(items) else None
  }

  /** Two ordered lists put together in order. */
  function Merge(xs: seq<Listed>, ys: seq<Listed>): seq<Listed>
    decreases |xs| + |ys|
  {
    if xs == [] then ys
    else if ys == [] then xs
    else if xs[0].requestedAt > ys[0].requestedAt then [xs[0]] + Merge(xs[1..], ys)
    else [ys[0]] + Merge(xs, ys[1..])
  }

  ghost predicate StrictlyNewestFirst(xs: seq<Listed>) {
    forall i, j :: 0 <= i < j < |xs| ==> xs[i].requestedAt > xs[j].requestedAt
  }

  ghost predicate DistinctTimes(xs: seq<Listed>) {
    forall i, j :: 0 <= i < j < |xs| ==> xs[i].requestedAt != xs[j].requestedAt
  }

  // ---- filtering is projecting ----

  /** A family filter selects exactly the commands whose projection names that family, apart from
      those whose projection is refused, and these are the unreadable ones. */
  lemma FilterIsProjection(xs: seq<Listed>, family: OperationalFamily, x: Listed)
    ensures x in Filter(xs, Some(family)) && IsReadable(x) <==> x in xs && ProjectedFamily(x) == Some(family)
    ensures x in Filter(xs, None) && IsReadable(x) <==> x in xs && ProjectedFamily(x).Some?
  {
    assert Selected(Some(family), x) && IsReadable(x) <==> ProjectedFamily(x) == Some(family);
    assert Selected(None, x) && IsReadable(x) <==> ProjectedFamily(x).Some?;
  }

  lemma ItemsAreFiltered(store: seq<Listed>, filter: Option<OperationalFamily>, limit: nat, x: Listed)
    requires x in RecentItems(store, filter, limit)
    ensures x in store && Selected(filter, x)
  {
    OrderedKeeps(Filter(store, filter));
  }

  /** The list is answered exactly when each command on it is readable. */
  lemma ListAnswersExactly(store: seq<Listed>, filter: Option<OperationalFamily>, limit: nat)
    ensures RecentList(store, filter, limit).Some?
            <==> forall x :: x in RecentItems(store, filter, limit) ==> IsReadable(x)
  {
    hide RecentItems;
    forall x | x in RecentItems(store, filter, limit) ensures ProjectedFamily(x).Some? <==> IsReadable(x) {
      ItemsAreFiltered(store, filter, limit, x);
    }
  }

  /** One unreadable command hides every other: while it is the newest, no list that selects it
      is answered, whatever the limit. */
  lemma NewestUnreadableBlocks(store: seq<Listed>, filter: Option<OperationalFamily>, limit: nat, x: Listed)
    requires DistinctTimes(store) && limit > 0
    requires x in store && Selected(filter, x) && !IsReadable(x)
    requires forall y :: y in store && y != x ==> y.requestedAt < x.requestedAt
    ensures RecentList(store, filter, limit).None?
  {
    OrderedKeeps(store);
    OrderedFilter(store, filter);
    var all := Ordered(store);
    assert all[0] in store && x in all;
    assert all[0] == x;
    assert Ordered(Filter(store, filter)) == [x] + Filter(all[1..], filter);
    assert x in RecentItems(store, filter, limit);
    ListAnswersExactly(store, filter, limit);
  }

  /** Such a command: a fresh on-demand read whose payload asks for an operation that has no
      enumeration value. */
  lemma UnknownOperationIsUnreadable(requestedAt: Time, rows: Rows, name: string)
    requires rows.command.category == OnDemandReading && name != "" && name !in READ_NAMES
    ensures var payload := Object(map["on_demand_read_operation" := Text(name)]);
            !IsReadable(Listed(requestedAt, rows, Documents(payload, Null, Null)))
            && Selected(None, Listed(requestedAt, rows, Documents(payload, Null, Null)))
  {
    UnstartedExactly(OnDemandReading, Object(map["on_demand_read_operation" := Text(name)]));
  }

  lemma {:induction false} MergeMembers(xs: seq<Listed>, ys: seq<Listed>)
    ensures forall z :: z in Merge(xs, ys) ==> z in xs || z in ys
    decreases |xs| + |ys|
  {
    if xs != [] && ys != [] {
      if xs[0].requestedAt > ys[0].requestedAt { MergeMembers(xs[1..], ys); } else { MergeMembers(xs, ys[1..]); }
    }
  }

  /** When each family's list is answered, so is the list of all. */
  lemma FamiliesAnswerForAll(store: seq<Listed>, limit: nat)
    requires DistinctTimes(store)
    requires forall family :: RecentList(store, Some(family), limit).Some?
    ensures RecentList(store, None, limit).Some?
  {
    hide RecentItems;
    var p := RecentItems(store, Some(ProfileCaptureFamily), limit);
    var r := RecentItems(store, Some(RelayControlFamily), limit);
    var o := RecentItems(store, Some(OnDemandReadFamily), limit);
    RecentListMerge(store, limit);
    MergeMembers(r, o);
    MergeMembers(p, Take(Merge(r, o), limit));
    assert RecentList(store, Some(ProfileCaptureFamily), limit).Some?
        && RecentList(store, Some(RelayControlFamily), limit).Some?
        && RecentList(store, Some(OnDemandReadFamily), limit).Some?;
    forall x | x in RecentItems(store, None, limit) ensures ProjectedFamily(x).Some? {
      assert x in p || x in r || x in o;
    }
  }

  // ---- ordering commutes with filtering ----

  lemma {:induction false} InsertKeeps(x: Listed, ys: seq<Listed>)
    ensures forall y :: y in Insert(x, ys) <==> y == x || y in ys
    ensures (StrictlyNewestFirst(ys) && (forall y :: y in ys ==> y.requestedAt != x.requestedAt))
            ==> StrictlyNewestFirst(Insert(x, ys))
  {
    if ys != [] && x.requestedAt <= ys[0].requestedAt {
      InsertKeeps(x, ys[1..]);
      assert ys == [ys[0]] + ys[1..];
      var t := Insert(x, ys[1..]);
      assert Insert(x, ys) == [ys[0]] + t;
      if StrictlyNewestFirst(ys) && (forall y :: y in ys ==> y.requestedAt != x.requestedAt) {
        assert forall y :: y in t ==> y.requestedAt < ys[0].requestedAt;
      }
    }
  }

  lemma {:induction false} OrderedKeeps(xs: seq<Listed>)
    ensures forall x :: x in Ordered(xs) <==> x in xs
    ensures DistinctTimes(xs) ==> StrictlyNewestFirst(Ordered(xs))
  {
    if xs != [] {
      OrderedKeeps(xs[1..]);
      InsertKeeps(xs[0], Ordered(xs[1..]));
      assert xs == [xs[0]] + xs[1..];
    }
  }

  lemma {:induction false} FilterInsert(x: Listed, ys: seq<Listed>, filter: Option<OperationalFamily>)
    requires StrictlyNewestFirst(ys) && forall y :: y in ys ==> y.requestedAt != x.requestedAt
    ensures Filter(Insert(x, ys), filter)
            == if Selected(filter, x) then Insert(x, Filter(ys, filter)) else Filter(ys, filter)
  {
    if ys == [] || x.requestedAt > ys[0].requestedAt {
      assert ([x] + ys)[1..] == ys;
      if ys != [] { FilteredAreOlder(ys, filter); }
      var f := Filter(ys, filter);
      if f != [] { assert f[0] in ys; }
    } else {
      FilterInsert(x, ys[1..], filter);
      assert ([ys[0]] + Insert(x, ys[1..]))[1..] == Insert(x, ys[1..]);
      if Selected(filter, ys[0]) {
        assert ([ys[0]] + Filter(ys[1..], filter))[1..] == Filter(ys[1..], filter);
      } else if Selected(filter, x) && Filter(ys[1..], filter) != [] {
        assert Filter(ys, filter) == Filter(ys[1..], filter);
      }
    }
  }

  lemma FilteredAreOlder(ys: seq<Listed>, filter: Option<OperationalFamily>)
    requires StrictlyNewestFirst(ys) && ys != []
    ensures forall y :: y in Filter(ys, filter) ==> y.requestedAt <= ys[0].requestedAt
  {
    assert forall y :: y in ys ==> y.requestedAt <= ys[0].requestedAt;
  }

  lemma {:induction false} OrderedFilter(xs: seq<Listed>, filter: Option<OperationalFamily>)
    requires DistinctTimes(xs)
    ensures Ordered(Filter(xs, filter)) == Filter(Ordered(xs), filter)
  {
    if xs != [] {
      OrderedFilter(xs[1..], filter);
      OrderedKeeps(xs[1..]);
      FilterInsert(xs[0], Ordered(xs[1..]), filter);
    }
  }

  // ---- what is on the list ----

  ghost predicate NewestFirst(xs: seq<Listed>) {
    forall i, j :: 0 <= i < j < |xs| ==> xs[i].requestedAt >= xs[j].requestedAt
  }

  /** The positions of the selected commands. */
  ghost function SelectedAt(store: seq<Listed>, filter: Option<OperationalFamily>): set<nat> {
    set i: nat | i < |store| && Selected(filter, store[i])
  }

  lemma {:induction false} InsertOrders(x: Listed, ys: seq<Listed>)
    requires NewestFirst(ys)
    ensures NewestFirst(Insert(x, ys)) && multiset(Insert(x, ys)) == multiset(ys) + multiset{x}
  {
    if ys != [] && x.requestedAt <= ys[0].requestedAt {
      InsertOrders(x, ys[1..]);
      var t := Insert(x, ys[1..]);
      assert ys == [ys[0]] + ys[1..];
      forall z | z in t ensures z.requestedAt <= ys[0].requestedAt {
        assert z in multiset(t);
      }
      HeadFirst(ys[0], t);
    } else {
      HeadFirst(x, ys);
    }
  }

  lemma HeadFirst(x: Listed, ys: seq<Listed>)
    requires NewestFirst(ys) && forall y :: y in ys ==> y.requestedAt <= x.requestedAt
    ensures NewestFirst([x] + ys) && multiset([x] + ys) == multiset(ys) + multiset{x}
  {
  }

  lemma {:induction false} OrderedOrders(xs: seq<Listed>)
    ensures NewestFirst(Ordered(xs)) && multiset(Ordered(xs)) == multiset(xs)
  {
    if xs != [] {
      OrderedOrders(xs[1..]);
      InsertOrders(xs[0], Ordered(xs[1..]));
      assert xs == [xs[0]] + xs[1..];
    }
  }

  lemma {:induction false} FilterCounts(xs: seq<Listed>, filter: Option<OperationalFamily>)
    ensures |Filter(xs, filter)| == |SelectedAt(xs, filter)|
    ensures forall x :: multiset(Filter(xs, filter))[x] == if Selected(filter, x) then multiset(xs)[x] else 0
  {
    if xs != [] {
      var rest := xs[1..];
      FilterCounts(rest, filter);
      assert xs == [xs[0]] + rest;
      SelectedShift(xs, filter);
    }
  }

  lemma SelectedShift(xs: seq<Listed>, filter: Option<OperationalFamily>)
    requires xs != []
    ensures |SelectedAt(xs, filter)| == |SelectedAt(xs[1..], filter)| + (if Selected(filter, xs[0]) then 1 else 0)
  {
    var rest := SelectedAt(xs[1..], filter);
    var shifted := Shifted(rest);
    ShiftCount(rest);
    forall i: nat | i in SelectedAt(xs, filter) && i > 0 ensures i in shifted {
      assert i - 1 in rest;
    }
    assert SelectedAt(xs, filter) == if Selected(filter, xs[0]) then shifted + {0} else shifted;
  }

  ghost function Shifted(s: set<nat>): set<nat> {
    set i | i in s :: i + 1
  }

  lemma {:induction false} ShiftCount(s: set<nat>)
    ensures |Shifted(s)| == |s|
  {
    if s != {} {
      var x :| x in s;
      ShiftCount(s - {x});
      forall k | k in Shifted(s) ensures k in Shifted(s - {x}) + {x + 1} {
        var i :| i in s && k == i + 1;
        assert i in s - {x} || i == x;
      }
      assert Shifted(s) == Shifted(s - {x}) + {x + 1};
    }
  }

  /** The list in full: as many of the selected commands as there are, up to the limit, newest
      first, each as often as it is stored, and none left out that is newer than one on it. */
  lemma RecentListIsNewest(store: seq<Listed>, filter: Option<OperationalFamily>, limit: nat)
    ensures var items := RecentItems(store, filter, limit);
            var selected := |SelectedAt(store, filter)|;
            && |items| == (if selected <= limit then selected else limit)
            && NewestFirst(items)
            && (forall x :: x in items ==> x in store && Selected(filter, x))
            && multiset(items) <= multiset(store)
            && (forall x, y :: Selected(filter, x) && multiset(items)[x] < multiset(store)[x] && y in items ==>
                  x.requestedAt <= y.requestedAt)
            && (DistinctTimes(store) ==>
                  forall x, y :: x in store && Selected(filter, x) && x !in items && y in items ==>
                    x.requestedAt < y.requestedAt)
  {
    hide Ordered, Filter, Take, SelectedAt, NewestFirst;
    var chosen := Filter(store, filter);
    FilterCounts(store, filter);
    OrderedOrders(chosen);
    assert |multiset(Ordered(chosen))| == |Ordered(chosen)| && |multiset(chosen)| == |chosen|;
    var rest := TakeNewest(Ordered(chosen), limit);
    var items := RecentItems(store, filter, limit);
    forall x | x in items ensures x in store && Selected(filter, x) {
      assert x in multiset(items);
      assert multiset(chosen)[x] > 0;
    }
    forall x, y | Selected(filter, x) && multiset(items)[x] < multiset(store)[x] && y in items
      ensures x.requestedAt <= y.requestedAt {
      assert multiset(chosen)[x] == multiset(store)[x];
      assert x in multiset(rest);
    }
    forall x ensures multiset(items)[x] <= multiset(store)[x] {
      assert multiset(items)[x] <= multiset(chosen)[x] <= multiset(store)[x];
    }
    if DistinctTimes(store) { DistinctAreStrict(store, items, filter); }
  }

  /** The first `n` of an ordered list, and what they leave. */
  lemma TakeNewest(all: seq<Listed>, n: nat) returns (rest: seq<Listed>)
    requires NewestFirst(all)
    ensures var items := Take(all, n);
            && NewestFirst(items) && |items| == (if |all| <= n then |all| else n)
            && multiset(all) == multiset(items) + multiset(rest)
            && (forall x, y :: x in rest && y in items ==> x.requestedAt <= y.requestedAt)
  {
    var items := Take(all, n);
    rest := all[|items|..];
    assert all == items + rest;
    forall x, y | x in rest && y in items ensures x.requestedAt <= y.requestedAt {
      var i :| 0 <= i < |rest| && rest[i] == x;
      var j :| 0 <= j < |items| && items[j] == y;
      assert all[|items| + i] == x && all[j] == y;
    }
  }

  lemma DistinctAreStrict(store: seq<Listed>, items: seq<Listed>, filter: Option<OperationalFamily>)
    requires DistinctTimes(store) && forall y :: y in items ==> y in store
    requires forall x, y :: Selected(filter, x) && multiset(items)[x] < multiset(store)[x] && y in items ==>
               x.requestedAt <= y.requestedAt
    ensures forall x, y ::
              x in store && Selected(filter, x) && x !in items && y in items ==> x.requestedAt < y.requestedAt
  {
    forall x, y | x in store && Selected(filter, x) && x !in items && y in items ensures x.requestedAt < y.requestedAt {
      assert x in multiset(store) && x !in multiset(items);
      var i :| 0 <= i < |store| && store[i] == x;
      var j :| 0 <= j < |store| && store[j] == y;
      assert store[i] == x && store[j] == y && i != j;
      if i < j { assert store[i].requestedAt != store[j].requestedAt; }
      else { assert store[j].requestedAt != store[i].requestedAt; }
    }
  }

  // ---- merging the three filtered lists ----

  lemma TakeTail(xs: seq<Listed>, n: nat)
    requires n > 0 && xs != []
    ensures Take(xs, n) == [xs[0]] + Take(xs[1..], n - 1) && Take(xs, n)[1..] == Take(xs[1..], n - 1)
  {
    if |xs| > n { assert xs[..n] == [xs[0]] + xs[1..][..n - 1]; } else { assert xs == [xs[0]] + xs[1..]; }
  }

  lemma TakeTake(xs: seq<Listed>, n: nat, k: nat)
    requires k <= n
    ensures Take(Take(xs, n), k) == Take(xs, k)
  {
  }

  lemma MergeHeadLeft(x: Listed, xs: seq<Listed>, ys: seq<Listed>)
    requires ys != [] ==> x.requestedAt > ys[0].requestedAt
    ensures Merge([x] + xs, ys) == [x] + Merge(xs, ys)
  {
    assert ([x] + xs)[1..] == xs;
  }

  lemma MergeHeadRight(x: Listed, xs: seq<Listed>, ys: seq<Listed>)
    requires xs != [] ==> x.requestedAt >= xs[0].requestedAt
    ensures Merge(xs, [x] + ys) == [x] + Merge(xs, ys)
  {
    assert ([x] + ys)[1..] == ys;
  }

  /** The first `n` of a merge need only the first `n` of each part. */
  lemma {:induction false} TakeMerge(xs: seq<Listed>, ys: seq<Listed>, n: nat)
    ensures Take(Merge(xs, ys), n) == Take(Merge(Take(xs, n), Take(ys, n)), n)
    decreases |xs| + |ys|
  {
    if n > 0 && xs != [] && ys != [] {
      TakeTail(xs, n);
      TakeTail(ys, n);
      assert xs == [xs[0]] + xs[1..] && ys == [ys[0]] + ys[1..];
      if xs[0].requestedAt > ys[0].requestedAt {
        MergeHeadLeft(xs[0], xs[1..], ys);
        MergeHeadLeft(xs[0], Take(xs[1..], n - 1), Take(ys, n));
        TakeMerge(xs[1..], ys, n - 1);
        TakeMerge(Take(xs[1..], n - 1), Take(ys, n), n - 1);
        TakeTake(xs[1..], n - 1, n - 1);
        TakeTake(ys, n, n - 1);
        TakeTail([xs[0]] + Merge(xs[1..], ys), n);
        TakeTail([xs[0]] + Merge(Take(xs[1..], n - 1), Take(ys, n)), n);
      } else {
        MergeHeadRight(ys[0], xs, ys[1..]);
        MergeHeadRight(ys[0], Take(xs, n), Take(ys[1..], n - 1));
        TakeMerge(xs, ys[1..], n - 1);
        TakeMerge(Take(xs, n), Take(ys[1..], n - 1), n - 1);
        TakeTake(ys[1..], n - 1, n - 1);
        TakeTake(xs, n, n - 1);
        TakeTail([ys[0]] + Merge(xs, ys[1..]), n);
        TakeTail([ys[0]] + Merge(Take(xs, n), Take(ys[1..], n - 1)), n);
      }
    } else if n > 0 {
      TakeTake(xs, n, n);
      TakeTake(ys, n, n);
    }
  }

  /** An ordered list is the merge of its profile-capture, relay and on-demand parts. */
  lemma {:induction false} MergeOfParts(xs: seq<Listed>)
    requires StrictlyNewestFirst(xs) && forall x :: x in xs ==> Selected(None, x)
    ensures Merge(Filter(xs, Some(ProfileCaptureFamily)),
                  Merge(Filter(xs, Some(RelayControlFamily)), Filter(xs, Some(OnDemandReadFamily)))) == xs
  {
    if xs != [] {
      var x, ys := xs[0], xs[1..];
      assert x in xs && xs == [x] + ys;
      MergeOfParts(ys);
      HeadIsNewest(xs, Some(ProfileCaptureFamily));
      HeadIsNewest(xs, Some(RelayControlFamily));
      HeadIsNewest(xs, Some(OnDemandReadFamily));
      var p, r := Filter(ys, Some(ProfileCaptureFamily)), Filter(ys, Some(RelayControlFamily));
      var o := Filter(ys, Some(OnDemandReadFamily));
      OneFamily(x);
      if Selected(Some(ProfileCaptureFamily), x) {
        MergeHeadLeft(x, p, Merge(r, o));
      } else if Selected(Some(RelayControlFamily), x) {
        MergeHeadLeft(x, r, o);
        MergeHeadRight(x, p, Merge(r, o));
      } else {
        MergeHeadRight(x, r, o);
        MergeHeadRight(x, p, Merge(r, o));
      }
    }
  }

  lemma OneFamily(x: Listed)
    requires Selected(None, x)
    ensures Selected(Some(ProfileCaptureFamily), x) || Selected(Some(RelayControlFamily), x)
            || Selected(Some(OnDemandReadFamily), x)
    ensures !(Selected(Some(ProfileCaptureFamily), x) && Selected(Some(RelayControlFamily), x))
    ensures !(Selected(Some(ProfileCaptureFamily), x) && Selected(Some(OnDemandReadFamily), x))
    ensures !(Selected(Some(RelayControlFamily), x) && Selected(Some(OnDemandReadFamily), x))
  {
  }

  lemma HeadIsNewest(xs: seq<Listed>, filter: Option<OperationalFamily>)
    requires StrictlyNewestFirst(xs) && xs != []
    ensures var ys := Filter(xs, filter);
            if Selected(filter, xs[0]) then ys == [xs[0]] + Filter(xs[1..], filter)
            else ys == Filter(xs[1..], filter) && (ys != [] ==> ys[0].requestedAt < xs[0].requestedAt)
  {
    var ys := Filter(xs[1..], filter);
    if ys != [] { assert ys[0] in xs[1..]; }
  }

  /** The unfiltered list of the `limit` newest commands is the `limit` newest of the merge
      of the three filtered lists, in the same order. */
  lemma RecentListMerge(store: seq<Listed>, limit: nat)
    requires DistinctTimes(store)
    ensures RecentItems(store, None, limit) ==
            Take(Merge(RecentItems(store, Some(ProfileCaptureFamily), limit),
                       Take(Merge(RecentItems(store, Some(RelayControlFamily), limit),
                                  RecentItems(store, Some(OnDemandReadFamily), limit)), limit)), limit)
  {
    var all := Filter(Ordered(store), None);
    var p, r, o := Some(ProfileCaptureFamily), Some(RelayControlFamily), Some(OnDemandReadFamily);
    OrderedKeeps(store);
    OrderedFilter(store, None);
    OrderedFilter(store, p);
    OrderedFilter(store, r);
    OrderedFilter(store, o);
    FilterTwice(Ordered(store), p);
    FilterTwice(Ordered(store), r);
    FilterTwice(Ordered(store), o);
    FilterKeepsOrder(Ordered(store), None);
    MergeOfParts(all);
    var fp, fr, fo := Filter(all, p), Filter(all, r), Filter(all, o);
    TakeMerge(fp, Merge(fr, fo), limit);
    TakeMerge(fr, fo, limit);
    assert Take(Take(Merge(fr, fo), limit), limit) == Take(Merge(fr, fo), limit);
  }

  lemma {:induction false} FilterTwice(xs: seq<Listed>, filter: Option<OperationalFamily>)
    ensures Filter(Filter(xs, None), filter) == Filter(xs, filter)
  {
    if xs != [] {
      FilterTwice(xs[1..], filter);
      if Selected(None, xs[0]) {
        assert ([xs[0]] + Filter(xs[1..], None))[1..] == Filter(xs[1..], None);
      }
    }
  }

  lemma PrependKeepsOrder(x: Listed, ys: seq<Listed>)
    requires StrictlyNewestFirst(ys) && forall y :: y in ys ==> y.requestedAt < x.requestedAt
    ensures StrictlyNewestFirst([x] + ys)
  {
  }

  lemma {:induction false} FilterKeepsOrder(xs: seq<Listed>, filter: Option<OperationalFamily>)
    requires StrictlyNewestFirst(xs)
    ensures StrictlyNewestFirst(Filter(xs, filter))
  {
    if xs != [] {
      FilterKeepsOrder(xs[1..], filter);
      var ys := Filter(xs[1..], filter);
      forall y | y in ys ensures y.requestedAt < xs[0].requestedAt { assert y in xs[1..]; }
      if Selected(filter, xs[0]) { PrependKeepsOrder(xs[0], ys); }
    }
  }
}
