/** Grouping the fetched logs by request name: one chart per name, each
    holding that name's records, in input order, as chart points. */
module Grouping {
  import opened Logs

  /** A chart as `Object.entries` hands it to the renderer: the request name
      and its points. */
  type Entry = (string, seq<ChartData>)

  function Init(logs: seq<Log>): seq<Log>
    requires |logs| > 0
  {
    logs[..|logs| - 1]
  }

  function Last(logs: seq<Log>): Log
    requires |logs| > 0
  {
    logs[|logs| - 1]
  }

  /** The distinct request names of `logs`, as a set. */
  function NameSet(logs: seq<Log>): set<string>
  {
    set i | 0 <= i < |logs| :: logs[i].requestName
  }

  lemma NameSetSnoc(logs: seq<Log>)
    requires |logs| > 0
    ensures NameSet(logs) == NameSet(Init(logs)) + {Last(logs).requestName}
  {
    var p := Init(logs);
    forall n | n in NameSet(logs) ensures n in NameSet(p) + {Last(logs).requestName} {
      var i :| 0 <= i < |logs| && logs[i].requestName == n;
      if i < |p| {
        assert p[i] == logs[i];
      }
    }
    forall n | n in NameSet(p) ensures n in NameSet(logs) {
      var i :| 0 <= i < |p| && p[i].requestName == n;
      assert logs[i] == p[i];
    }
  }

  /** The keys of the grouping object, in the order they were inserted: each
      request name once, where it first occurs. */
  function Names(logs: seq<Log>): (r: seq<string>)
    ensures |r| <= |logs|
    ensures r == [] <==> logs == []
  {
    if logs == [] then []
    else
      var prev := Names(Init(logs));
      var n := Last(logs).requestName;
      if n in prev then prev else prev + [n]
  }

  /** The keys are the distinct request names, each exactly once. */
  lemma {:induction false} NamesAreDistinctNames(logs: seq<Log>)
    ensures var names := Names(logs);
            && (forall a, b :: 0 <= a < b < |names| ==> names[a] != names[b])
            && (forall n :: n in names <==> n in NameSet(logs))
  {
    if logs != [] {
      NamesAreDistinctNames(Init(logs));
      NameSetSnoc(logs);
    }
  }

  /** `log` if it carries `name`, and nothing otherwise. */
  function Pick(log: Log, name: string): seq<Log>
  {
    if log.requestName == name then [log] else []
  }

  /** The records of `logs` whose request name is `name`, in input order. */
  function Matching(logs: seq<Log>, name: string): (r: seq<Log>)
    ensures |r| <= |logs|
    ensures forall k :: 0 <= k < |r| ==> r[k].requestName == name
    ensures r != [] <==> name in NameSet(logs)
  {
    if logs == [] then []
    else
      NameSetSnoc(logs);
      Matching(Init(logs), name) + Pick(Last(logs), name)
  }

  function ToPoints(logs: seq<Log>, formatDate: string -> string): seq<ChartData>
  {
    seq(|logs|, k requires 0 <= k < |logs| => ToPoint(logs[k], formatDate))
  }

  /** The grouping object the reduce builds: each request name mapped to the
      points of its records. */
  function Grouped(logs: seq<Log>, formatDate: string -> string): (g: map<string, seq<ChartData>>)
    ensures g.Keys == NameSet(logs)
    ensures forall n :: n in g ==> g[n] != []
  {
    NamesAreDistinctNames(logs);
    map n | n in Names(logs) :: ToPoints(Matching(logs, n), formatDate)
  }

  /** `Object.entries`: the keys in insertion order, each with its value. */
  function Entries(groups: map<string, seq<ChartData>>, keys: seq<string>): (r: seq<Entry>)
    requires forall k :: k in keys ==> k in groups
    ensures |r| == |keys|
    ensures forall i :: 0 <= i < |r| ==> r[i].0 == keys[i] && r[i].1 == groups[keys[i]]
  {
    if keys == [] then [] else [(keys[0], groups[keys[0]])] + Entries(groups, keys[1..])
  }

  /** The charts rendered for `logs`, in the order they are drawn. */
  function Charts(logs: seq<Log>, formatDate: string -> string): (r: seq<Entry>)
    ensures |r| == |Names(logs)|
    ensures forall i :: 0 <= i < |r| ==>
              r[i].0 == Names(logs)[i] && r[i].1 == Grouped(logs, formatDate)[r[i].0]
  {
    Entries(Grouped(logs, formatDate), Names(logs))
  }

  /** The number of points over all charts. */
  function PointCount(charts: seq<Entry>): nat
  {
    if charts == [] then 0 else |charts[0].1| + PointCount(charts[1..])
  }

  /** The indices of the records named `name`, in increasing order: the
      reference description of a group's members. */
  function Positions(logs: seq<Log>, name: string): (r: seq<nat>)
    ensures forall k :: 0 <= k < |r| ==> r[k] < |logs| && logs[r[k]].requestName == name
    ensures forall a, b :: 0 <= a < b < |r| ==> r[a] < r[b]
    ensures forall i :: 0 <= i < |logs| && logs[i].requestName == name ==> i in r
  {
    if logs == [] then []
    else
      var prev := Positions(Init(logs), name);
      assert forall k :: 0 <= k < |prev| ==> logs[prev[k]] == Init(logs)[prev[k]];
      prev + (if Last(logs).requestName == name then [|logs| - 1] else [])
  }

  /** The index of the first record named `name`. */
  function FirstIndex(logs: seq<Log>, name: string): (i: nat)
    requires name in NameSet(logs)
    ensures i < |logs| && logs[i].requestName == name
    ensures forall k :: 0 <= k < i ==> logs[k].requestName != name
  {
    if logs[0].requestName == name then 0
    else
      assert name in NameSet(logs[1..]) by {
        var j :| 0 <= j < |logs| && logs[j].requestName == name;
        assert logs[1..][j - 1] == logs[j];
      }
      1 + FirstIndex(logs[1..], name)
  }

  /** The reduce of the dashboard: walk the records in order, create an empty
      list the first time a name is seen, and append the record's point to its
      name's list. `keys` records the insertion order of the object's keys. */
  method GroupByRequestName(logs: seq<Log>, formatDate: string -> string)
    returns (groups: map<string, seq<ChartData>>, keys: seq<string>)
    ensures keys == Names(logs)
    ensures groups == Grouped(logs, formatDate)
  {
    groups, keys := map[], [];
    for i := 0 to |logs|
      invariant keys == Names(logs[..i])
      invariant groups == Grouped(logs[..i], formatDate)
    {
      var log := logs[i];
      ReduceStep(logs, i, formatDate, groups, keys);
      var prior := if log.requestName in groups then groups[log.requestName] else [];
      if log.requestName !in groups {
        keys := keys + [log.requestName];
      }
      groups := groups[log.requestName := prior + [ToPoint(log, formatDate)]];
    }
    assert logs[..|logs|] == logs;
  }

  /** The loop step of `GroupByRequestName`, stated on the accumulators. */
  lemma ReduceStep(logs: seq<Log>, i: nat, formatDate: string -> string,
                   groups: map<string, seq<ChartData>>, keys: seq<string>)
    requires i < |logs|
    requires keys == Names(logs[..i]) && groups == Grouped(logs[..i], formatDate)
    ensures var n := logs[i].requestName;
            && (n in groups <==> n in keys)
            && Names(logs[..i + 1]) == (if n in keys then keys else keys + [n])
            && Grouped(logs[..i + 1], formatDate)
                 == groups[n := (if n in groups then groups[n] else []) + [ToPoint(logs[i], formatDate)]]
  {
    var seen := logs[..i + 1];
    assert Init(seen) == logs[..i] && Last(seen) == logs[i];
    GroupedSnoc(seen, formatDate);
    NamesAreDistinctNames(logs[..i]);
  }

  /** One step of the reduce on the specification side: adding a record
      appends its point to its name's group, creating the group if needed. */
  lemma GroupedSnoc(logs: seq<Log>, formatDate: string -> string)
    requires |logs| > 0
    ensures var g := Grouped(Init(logs), formatDate);
            var n := Last(logs).requestName;
            Grouped(logs, formatDate)
              == g[n := (if n in g then g[n] else []) + [ToPoint(Last(logs), formatDate)]]
  {
    var p, l := Init(logs), Last(logs);
    var g, n := Grouped(p, formatDate), l.requestName;
    var expected := g[n := (if n in g then g[n] else []) + [ToPoint(l, formatDate)]];
    var actual := Grouped(logs, formatDate);
    assert actual.Keys == expected.Keys by {
      NameSetSnoc(logs);
    }
    forall k | k in actual ensures actual[k] == expected[k] {
      GroupedSnocAt(logs, formatDate, k);
    }
  }

  lemma GroupedSnocAt(logs: seq<Log>, formatDate: string -> string, k: string)
    requires |logs| > 0
    requires k in NameSet(logs)
    ensures var g := Grouped(Init(logs), formatDate);
            var n := Last(logs).requestName;
            k in Grouped(logs, formatDate)
            && Grouped(logs, formatDate)[k]
               == g[n := (if n in g then g[n] else []) + [ToPoint(Last(logs), formatDate)]][k]
  {
    var p, l := Init(logs), Last(logs);
    NamesAreDistinctNames(logs);
    NamesAreDistinctNames(p);
    MatchingSnoc(logs, k);
    if k == l.requestName {
      ToPointsSnoc(Matching(p, k), l, formatDate);
    }
  }

  lemma MatchingSnoc(logs: seq<Log>, name: string)
    requires |logs| > 0
    ensures Matching(logs, name) == Matching(Init(logs), name) + Pick(Last(logs), name)
  {
  }

  lemma ToPointsSnoc(logs: seq<Log>, log: Log, formatDate: string -> string)
    ensures ToPoints(logs + [log], formatDate) == ToPoints(logs, formatDate) + [ToPoint(log, formatDate)]
  {
  }

  /** A group is exactly the records of its name, in input order, each turned
      into a point that carries the formatted date, the duration and the status. */
  lemma GroupIsOrderedSelection(logs: seq<Log>, name: string, formatDate: string -> string)
    requires name in NameSet(logs)
    ensures name in Grouped(logs, formatDate)
    ensures var group, pos := Grouped(logs, formatDate)[name], Positions(logs, name);
            && |group| == |pos| > 0
            && forall k :: 0 <= k < |group| ==>
                 group[k] == ChartData(formatDate(logs[pos[k]].date),
                                       logs[pos[k]].executionTime,
                                       logs[pos[k]].statusCode)
  {
    MatchingPositions(logs, name);
  }

  lemma {:induction false} MatchingPositions(logs: seq<Log>, name: string)
    ensures |Matching(logs, name)| == |Positions(logs, name)|
    ensures forall k :: 0 <= k < |Matching(logs, name)| ==>
              Matching(logs, name)[k] == logs[Positions(logs, name)[k]]
  {
    if logs != [] {
      var p, l := Init(logs), Last(logs);
      var m, pos := Matching(p, name), Positions(p, name);
      var all, allPos := Matching(logs, name), Positions(logs, name);
      MatchingPositions(p, name);
      MatchingSnoc(logs, name);
      PositionsSnoc(logs, name);
      forall k | 0 <= k < |all| ensures all[k] == logs[allPos[k]] {
        if k < |m| {
          assert all[k] == m[k] && allPos[k] == pos[k];
          assert logs[pos[k]] == p[pos[k]];
        } else {
          assert all[k] == l && allPos[k] == |logs| - 1;
        }
      }
    }
  }

  lemma PositionsSnoc(logs: seq<Log>, name: string)
    requires |logs| > 0
    ensures Positions(logs, name)
         == Positions(Init(logs), name) + (if Last(logs).requestName == name then [|logs| - 1] else [])
  {
  }

  /** The total number of records named by `keys`. */
  function SumCounts(logs: seq<Log>, keys: seq<string>): nat
  {
    if keys == [] then 0 else |Matching(logs, keys[0])| + SumCounts(logs, keys[1..])
  }

  lemma {:induction false} PointCountEntries(logs: seq<Log>, keys: seq<string>, formatDate: string -> string)
    requires forall k :: k in keys ==> k in Grouped(logs, formatDate)
    ensures PointCount(Entries(Grouped(logs, formatDate), keys)) == SumCounts(logs, keys)
  {
    if keys != [] {
      var g := Grouped(logs, formatDate);
      assert Entries(g, keys)[1..] == Entries(g, keys[1..]);
      PointCountEntries(logs, keys[1..], formatDate);
    }
  }

  lemma {:induction false} SumCountsSnoc(logs: seq<Log>, keys: seq<string>)
    requires |logs| > 0
    requires forall a, b :: 0 <= a < b < |keys| ==> keys[a] != keys[b]
    ensures SumCounts(logs, keys)
         == SumCounts(Init(logs), keys) + (if Last(logs).requestName in keys then 1 else 0)
  {
    if keys != [] {
      MatchingSnoc(logs, keys[0]);
      SumCountsSnoc(logs, keys[1..]);
      assert Last(logs).requestName in keys <==>
             Last(logs).requestName == keys[0] || Last(logs).requestName in keys[1..];
      assert keys[0] !in keys[1..] by {
        forall j | 0 <= j < |keys[1..]| ensures keys[1..][j] != keys[0] {
          assert keys[1..][j] == keys[j + 1];
        }
      }
    }
  }

  lemma {:induction false} SumCountsAppend(logs: seq<Log>, keys: seq<string>, key: string)
    ensures SumCounts(logs, keys + [key]) == SumCounts(logs, keys) + |Matching(logs, key)|
  {
    if keys != [] {
      assert (keys + [key])[1..] == keys[1..] + [key];
      SumCountsAppend(logs, keys[1..], key);
    }
  }

  lemma {:induction false} SumCountsNames(logs: seq<Log>)
    ensures SumCounts(logs, Names(logs)) == |logs|
  {
    if logs != [] {
      var p, n := Init(logs), Last(logs).requestName;
      SumCountsNames(p);
      NamesAreDistinctNames(p);
      SumCountsSnoc(logs, Names(p));
      if n !in Names(p) {
        SumCountsAppend(logs, Names(p), n);
        MatchingSnoc(logs, n);
      }
    }
  }

  /** No record is lost or duplicated: the charts hold one point per record. */
  lemma EveryRecordPlottedOnce(logs: seq<Log>, formatDate: string -> string)
    ensures PointCount(Charts(logs, formatDate)) == |logs|
  {
    PointCountEntries(logs, Names(logs), formatDate);
    SumCountsNames(logs);
  }

  lemma {:induction false} NamesCount(logs: seq<Log>)
    ensures |Names(logs)| == |NameSet(logs)|
  {
    if logs != [] {
      NamesCount(Init(logs));
      NamesAreDistinctNames(Init(logs));
      NameSetSnoc(logs);
    }
  }

  /** One chart per distinct request name, each name once. */
  lemma OneChartPerName(logs: seq<Log>, formatDate: string -> string)
    ensures var charts := Charts(logs, formatDate);
            && |charts| == |NameSet(logs)|
            && (forall n :: n in NameSet(logs) <==> exists i :: 0 <= i < |charts| && charts[i].0 == n)
            && (forall a, b :: 0 <= a < b < |charts| ==> charts[a].0 != charts[b].0)
  {
    var charts, names := Charts(logs, formatDate), Names(logs);
    NamesAreDistinctNames(logs);
    NamesCount(logs);
    forall i | 0 <= i < |charts| ensures charts[i].0 == names[i] {
    }
    forall n | n in NameSet(logs) ensures exists i :: 0 <= i < |charts| && charts[i].0 == n {
      var i :| 0 <= i < |names| && names[i] == n;
      assert charts[i].0 == n;
    }
  }

  /** No chart is empty, and each holds the points of its name's records. */
  lemma ChartsHoldTheirRecords(logs: seq<Log>, formatDate: string -> string)
    ensures var charts := Charts(logs, formatDate);
            forall i :: 0 <= i < |charts| ==>
              charts[i].1 != [] && charts[i].1 == ToPoints(Matching(logs, charts[i].0), formatDate)
  {
    var charts, names := Charts(logs, formatDate), Names(logs);
    NamesAreDistinctNames(logs);
    forall i | 0 <= i < |charts|
      ensures charts[i].1 != [] && charts[i].1 == ToPoints(Matching(logs, charts[i].0), formatDate)
    {
      assert charts[i].0 == names[i];
      assert names[i] in NameSet(logs);
    }
  }

  /** `keys` are request names of `logs`, listed in the order they first occur. */
  predicate InFirstOccurrenceOrder(logs: seq<Log>, keys: seq<string>)
  {
    && (forall k :: k in keys ==> k in NameSet(logs))
    && forall a, b :: 0 <= a < b < |keys| ==> FirstIndex(logs, keys[a]) < FirstIndex(logs, keys[b])
  }

  /** Charts appear in the order their request names first occur. */
  lemma ChartsInFirstOccurrenceOrder(logs: seq<Log>, formatDate: string -> string)
    ensures var charts := Charts(logs, formatDate);
            InFirstOccurrenceOrder(logs, seq(|charts|, i requires 0 <= i < |charts| => charts[i].0))
  {
    var charts := Charts(logs, formatDate);
    NamesFirstOccurrenceOrder(logs);
    assert seq(|charts|, i requires 0 <= i < |charts| => charts[i].0) == Names(logs);
  }

  lemma {:induction false} NamesFirstOccurrenceOrder(logs: seq<Log>)
    ensures InFirstOccurrenceOrder(logs, Names(logs))
  {
    if logs != [] {
      var p, n := Init(logs), Last(logs).requestName;
      NamesFirstOccurrenceOrder(p);
      NamesAreDistinctNames(p);
      OrderKeptBySnoc(logs, Names(p));
      if n !in Names(p) {
        OrderExtendedByNewName(logs, Names(p));
      }
    }
  }

  lemma OrderKeptBySnoc(logs: seq<Log>, keys: seq<string>)
    requires |logs| > 0 && InFirstOccurrenceOrder(Init(logs), keys)
    ensures InFirstOccurrenceOrder(logs, keys)
  {
    NameSetSnoc(logs);
    forall k | k in keys ensures FirstIndex(logs, k) == FirstIndex(Init(logs), k) {
      FirstIndexSnoc(logs, k);
    }
  }

  lemma OrderExtendedByNewName(logs: seq<Log>, keys: seq<string>)
    requires |logs| > 0 && Last(logs).requestName !in NameSet(Init(logs))
    requires InFirstOccurrenceOrder(Init(logs), keys)
    ensures InFirstOccurrenceOrder(logs, keys + [Last(logs).requestName])
  {
    var p, n := Init(logs), Last(logs).requestName;
    OrderKeptBySnoc(logs, keys);
    FirstIndexNew(logs);
    var ext := keys + [n];
    forall a, b | 0 <= a < b < |ext|
      ensures FirstIndex(logs, ext[a]) < FirstIndex(logs, ext[b])
    {
      assert ext[a] == keys[a];
      FirstIndexSnoc(logs, keys[a]);
      if b < |keys| {
        assert ext[b] == keys[b];
      }
    }
  }

  lemma FirstIndexSnoc(logs: seq<Log>, name: string)
    requires |logs| > 0 && name in NameSet(Init(logs))
    ensures name in NameSet(logs) && FirstIndex(logs, name) == FirstIndex(Init(logs), name)
  {
    NameSetSnoc(logs);
    var p := Init(logs);
    var i, j := FirstIndex(logs, name), FirstIndex(p, name);
    assert logs[j] == p[j];
    assert i <= j;
    assert p[i] == logs[i];
  }

  lemma FirstIndexNew(logs: seq<Log>)
    requires |logs| > 0 && Last(logs).requestName !in NameSet(Init(logs))
    ensures Last(logs).requestName in NameSet(logs)
    ensures FirstIndex(logs, Last(logs).requestName) == |logs| - 1
  {
    NameSetSnoc(logs);
    var p, n := Init(logs), Last(logs).requestName;
    forall k | 0 <= k < |p| ensures logs[k].requestName != n {
      assert logs[k] == p[k];
    }
  }
}
