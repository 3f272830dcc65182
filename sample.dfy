/** The built-in sample data as a test vector for the grouping. */
module SampleData {
  import opened Logs
  import opened Grouping

  /** The sample data renders as three charts: GetBalance with three points,
      TransferMoney with two and GetTransactions with three, in that order. */
  lemma SampleDataCharts(formatDate: string -> string)
    ensures Charts(MockData, formatDate) == [
      ("GetBalance", [
        ChartData(formatDate("2024-03-01T10:00:00"), 150, 200),
        ChartData(formatDate("2024-03-01T10:05:00"), 180, 200),
        ChartData(formatDate("2024-03-01T10:10:00"), 120, 500)]),
      ("TransferMoney", [
        ChartData(formatDate("2024-03-01T10:15:00"), 250, 200),
        ChartData(formatDate("2024-03-01T10:20:00"), 300, 400)]),
      ("GetTransactions", [
        ChartData(formatDate("2024-03-01T10:25:00"), 200, 200),
        ChartData(formatDate("2024-03-01T10:30:00"), 220, 200),
        ChartData(formatDate("2024-03-01T10:35:00"), 190, 200)])]
  {
    var m := MockData;
    SampleDataNames();
    SampleDataGroups();
    ChartsOfThree(m, formatDate);
    PointsOfThree(m[0], m[1], m[2], formatDate);
    PointsOfTwo(m[3], m[4], formatDate);
    PointsOfThree(m[5], m[6], m[7], formatDate);
  }

  lemma PointsOfTwo(a: Log, b: Log, formatDate: string -> string)
    ensures ToPoints([a, b], formatDate) == [ToPoint(a, formatDate), ToPoint(b, formatDate)]
  {
  }

  lemma PointsOfThree(a: Log, b: Log, c: Log, formatDate: string -> string)
    ensures ToPoints([a, b, c], formatDate)
         == [ToPoint(a, formatDate), ToPoint(b, formatDate), ToPoint(c, formatDate)]
  {
  }

  lemma ChartsOfThree(logs: seq<Log>, formatDate: string -> string)
    requires |Names(logs)| == 3
    ensures var names := Names(logs);
            Charts(logs, formatDate)
              == [(names[0], ToPoints(Matching(logs, names[0]), formatDate)),
                  (names[1], ToPoints(Matching(logs, names[1]), formatDate)),
                  (names[2], ToPoints(Matching(logs, names[2]), formatDate))]
  {
  }

  lemma SampleDataNames()
    ensures Names(MockData) == ["GetBalance", "TransferMoney", "GetTransactions"]
  {
    var m := MockData;
    assert Names(m[..0]) == [] by { assert m[..0] == []; }
    assert Names(m[..3]) == ["GetBalance"] by {
      forall k | 0 <= k < 3 ensures m[k].requestName == "GetBalance" {
      }
      NamesNextRun(m, 0, 3, [], "GetBalance");
    }
    assert Names(m[..5]) == ["GetBalance", "TransferMoney"] by {
      forall k | 3 <= k < 5 ensures m[k].requestName == "TransferMoney" {
      }
      NamesNextRun(m, 3, 5, ["GetBalance"], "TransferMoney");
    }
    assert Names(m[..8]) == ["GetBalance", "TransferMoney", "GetTransactions"] by {
      forall k | 5 <= k < 8 ensures m[k].requestName == "GetTransactions" {
      }
      NamesNextRun(m, 5, 8, ["GetBalance", "TransferMoney"], "GetTransactions");
    }
    assert m[..8] == m;
  }

  /** A run of records with a name not seen before adds that name as a key. */
  lemma NamesNextRun(m: seq<Log>, i: nat, j: nat, keys: seq<string>, name: string)
    requires i < j <= |m| && Names(m[..i]) == keys && name !in keys
    requires forall k :: i <= k < j ==> m[k].requestName == name
    ensures Names(m[..j]) == keys + [name]
  {
    var prefix, run := m[..i], m[i..j];
    assert forall k :: 0 <= k < |run| ==> run[k].requestName == name by {
      forall k | 0 <= k < |run| ensures run[k].requestName == name {
        assert run[k] == m[i + k];
      }
    }
    NamesAppendRun(prefix, run, name);
    assert m[..j] == prefix + run;
  }

  /** Appending a run of records that share one name adds that name to the
      keys if it is new, and changes nothing otherwise. */
  lemma {:induction false} NamesAppendRun(prefix: seq<Log>, run: seq<Log>, name: string)
    requires run != []
    requires forall k :: 0 <= k < |run| ==> run[k].requestName == name
    ensures Names(prefix + run)
         == if name in Names(prefix) then Names(prefix) else Names(prefix) + [name]
  {
    var all := prefix + run;
    assert Init(all) == prefix + Init(run);
    assert Last(all).requestName == name;
    if |run| > 1 {
      NamesAppendRun(prefix, Init(run), name);
    } else {
      assert prefix + Init(run) == prefix;
    }
  }

  lemma SampleDataGroups()
    ensures Matching(MockData, "GetBalance") == [MockData[0], MockData[1], MockData[2]]
    ensures Matching(MockData, "TransferMoney") == [MockData[3], MockData[4]]
    ensures Matching(MockData, "GetTransactions") == [MockData[5], MockData[6], MockData[7]]
  {
    MatchingOfRuns(MockData, "GetBalance", "TransferMoney", "GetTransactions");
  }

  /** Eight records in three runs of names, 3 + 2 + 3 long: each name selects
      its own run. */
  lemma MatchingOfRuns(m: seq<Log>, a: string, b: string, c: string)
    requires |m| == 8 && a != b && b != c && a != c
    requires m[0].requestName == a && m[1].requestName == a && m[2].requestName == a
    requires m[3].requestName == b && m[4].requestName == b
    requires m[5].requestName == c && m[6].requestName == c && m[7].requestName == c
    ensures Matching(m, a) == [m[0], m[1], m[2]]
    ensures Matching(m, b) == [m[3], m[4]]
    ensures Matching(m, c) == [m[5], m[6], m[7]]
  {
    MatchingOfEight(m, a);
    MatchingOfEight(m, b);
    MatchingOfEight(m, c);
  }

  lemma MatchingOfEight(m: seq<Log>, name: string)
    requires |m| == 8
    ensures Matching(m, name)
              == (Pick(m[0], name) + Pick(m[1], name) + Pick(m[2], name) + Pick(m[3], name))
               + (Pick(m[4], name) + Pick(m[5], name) + Pick(m[6], name) + Pick(m[7], name))
  {
    var front, back := m[..4], m[4..];
    assert m == front + back;
    MatchingConcat(front, back, name);
    MatchingOfFour(front, name);
    MatchingOfFour(back, name);
  }

  lemma MatchingOfFour(m: seq<Log>, name: string)
    requires |m| == 4
    ensures Matching(m, name) == Pick(m[0], name) + Pick(m[1], name) + Pick(m[2], name) + Pick(m[3], name)
  {
    assert Matching(m[..0], name) == [] by { assert m[..0] == []; }
    assert Matching(m[..1], name) == Pick(m[0], name) by { PrefixStep(m, 1, name); }
    assert Matching(m[..2], name) == Pick(m[0], name) + Pick(m[1], name) by { PrefixStep(m, 2, name); }
    assert Matching(m[..3], name) == Pick(m[0], name) + Pick(m[1], name) + Pick(m[2], name) by {
      PrefixStep(m, 3, name);
    }
    PrefixStep(m, 4, name);
    assert m[..4] == m;
  }

  /** Selecting by name distributes over concatenation. */
  lemma {:induction false} MatchingConcat(a: seq<Log>, b: seq<Log>, name: string)
    ensures Matching(a + b, name) == Matching(a, name) + Matching(b, name)
  {
    if b != [] {
      var front, last := Init(b), Last(b);
      assert Init(a + b) == a + front && Last(a + b) == last;
      calc {
        Matching(a + b, name);
        == { MatchingSnoc(a + b, name); }
        Matching(a + front, name) + Pick(last, name);
        == { MatchingConcat(a, front, name); }
        (Matching(a, name) + Matching(front, name)) + Pick(last, name);
        == { SeqAssoc(Matching(a, name), Matching(front, name), Pick(last, name)); }
        Matching(a, name) + (Matching(front, name) + Pick(last, name));
        == { MatchingSnoc(b, name); }
        Matching(a, name) + Matching(b, name);
      }
    } else {
      assert a + b == a;
    }
  }

  lemma SeqAssoc(x: seq<Log>, y: seq<Log>, z: seq<Log>)
    ensures (x + y) + z == x + (y + z)
  {
  }

  lemma PrefixStep(m: seq<Log>, k: nat, name: string)
    requires 0 < k <= |m|
    ensures Matching(m[..k], name) == Matching(m[..k - 1], name) + Pick(m[k - 1], name)
  {
    assert Init(m[..k]) == m[..k - 1];
    MatchingSnoc(m[..k], name);
  }
}
