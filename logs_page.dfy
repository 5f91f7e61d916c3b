/** The Logs page: the audit log, sorted by the column the user picked and
    shown a page at a time. Timestamps are milliseconds since the epoch, the
    value `new Date(timestamp)` subtracts as. */
module LogsPage {
  import opened Collections
  import opened Pagination

  const LogsUrl := "http://localhost:4000/api/logs"

  /** One audit entry as the table shows it. */
  datatype Log = Log(
    id: string,
    action: string,
    entity: string,
    entityId: string,
    user: string,
    details: string,
    timestamp: int)

  /** The two values the `order` state ever holds, "asc" and "desc". */
  datatype Order = Asc | Desc

  /** The sort state: `order` and `orderBy`. */
  datatype SortState = SortState(order: Order, orderBy: string)

  /** The page opens sorted by timestamp, newest first. */
  const InitialSort := SortState(Desc, "timestamp")

  /** `handleRequestSort(property)`: descending exactly when the column was
      already sorted ascending; the column becomes `property` in any case. */
  function RequestSort(s: SortState, property: string): (r: SortState)
    ensures r.orderBy == property
    ensures r.order == Desc <==> s.orderBy == property && s.order == Asc
  {
    var isAsc := s.orderBy == property && s.order == Asc;
    SortState(if isAsc then Desc else Asc, property)
  }

  /** A request on the current column flips the direction. */
  lemma RequestSortFlips(s: SortState)
    ensures RequestSort(s, s.orderBy).order == (if s.order == Asc then Desc else Asc)
  {
  }

  /** Two requests on the current column restore the sort state. */
  lemma RequestSortTwiceRestores(s: SortState, property: string)
    requires s.orderBy == property
    ensures RequestSort(RequestSort(s, property), property) == s
  {
  }

  /** A request on another column starts ascending, and the next one on it turns descending. */
  lemma RequestSortNewColumn(s: SortState, property: string)
    requires s.orderBy != property
    ensures RequestSort(s, property) == SortState(Asc, property)
    ensures RequestSort(RequestSort(s, property), property) == SortState(Desc, property)
  {
  }

  /** The number the comparator orders a log by: its timestamp ascending, its
      negated timestamp descending, and 0 for every log under any other column. */
  function SortKey(s: SortState, l: Log): int {
    if s.orderBy == "timestamp" then (if s.order == Asc then l.timestamp else -l.timestamp) else 0
  }

  /** The comparator handed to `logs.sort`; it is the difference of the two keys. */
  function Compare(s: SortState, a: Log, b: Log): (r: int)
    ensures r == SortKey(s, a) - SortKey(s, b)
    ensures s.orderBy != "timestamp" ==> r == 0
  {
    if s.orderBy == "timestamp" then
      if s.order == Asc then a.timestamp - b.timestamp else b.timestamp - a.timestamp
    else
      0
  }

  /** Every pair of positions is in comparator order. */
  predicate Sorted(s: SortState, logs: seq<Log>) {
    forall i, j :: 0 <= i < j < |logs| ==> Compare(s, logs[i], logs[j]) <= 0
  }

  /** Places `x` after every log that does not compare above it. */
  function Insert(s: SortState, x: Log, logs: seq<Log>): (r: seq<Log>)
    ensures multiset(r) == multiset(logs) + multiset{x}
    decreases |logs|
  {
    if logs == [] then [x]
    else if Compare(s, x, logs[0]) < 0 then [x] + logs
    else
      assert logs == [logs[0]] + logs[1..];
      [logs[0]] + Insert(s, x, logs[1..])
  }

  lemma SortedTail(s: SortState, logs: seq<Log>)
    requires Sorted(s, logs) && logs != []
    ensures Sorted(s, logs[1..])
  {
    forall i, j | 0 <= i < j < |logs[1..]| ensures Compare(s, logs[1..][i], logs[1..][j]) <= 0 {
      assert logs[1..][i] == logs[i + 1] && logs[1..][j] == logs[j + 1];
    }
  }

  /** Every log keys at `k` or above. */
  predicate KeysAtLeast(s: SortState, k: int, logs: seq<Log>) {
    forall j :: 0 <= j < |logs| ==> k <= SortKey(s, logs[j])
  }

  /** A log keyed no higher than everything in sorted logs can go in front. */
  lemma ConsSorted(s: SortState, h: Log, rest: seq<Log>)
    requires Sorted(s, rest) && KeysAtLeast(s, SortKey(s, h), rest)
    ensures Sorted(s, [h] + rest)
  {
    var r := [h] + rest;
    forall i, j | 0 <= i < j < |r| ensures Compare(s, r[i], r[j]) <= 0 {
      assert r[j] == rest[j - 1];
      if i > 0 {
        assert r[i] == rest[i - 1];
      }
    }
  }

  /** The first of sorted logs keys no higher than the rest. */
  lemma SortedHead(s: SortState, logs: seq<Log>)
    requires Sorted(s, logs) && logs != []
    ensures KeysAtLeast(s, SortKey(s, logs[0]), logs[1..])
  {
    forall j | 0 <= j < |logs[1..]| ensures SortKey(s, logs[0]) <= SortKey(s, logs[1..][j]) {
      assert logs[1..][j] == logs[j + 1];
      assert Compare(s, logs[0], logs[j + 1]) <= 0;
    }
  }

  /** Insertion adds no log below a bound both the logs and `x` respect. */
  lemma InsertKeepsBound(s: SortState, k: int, x: Log, logs: seq<Log>)
    requires KeysAtLeast(s, k, logs) && k <= SortKey(s, x)
    ensures KeysAtLeast(s, k, Insert(s, x, logs))
  {
    var r := Insert(s, x, logs);
    forall j | 0 <= j < |r| ensures k <= SortKey(s, r[j]) {
      assert r[j] in multiset(r);
      if r[j] != x {
        assert r[j] in multiset(logs);
        var i :| 0 <= i < |logs| && logs[i] == r[j];
      }
    }
  }

  /** Inserting into logs in comparator order keeps them in comparator order. */
  lemma {:induction false} InsertSorted(s: SortState, x: Log, logs: seq<Log>)
    requires Sorted(s, logs)
    ensures Sorted(s, Insert(s, x, logs))
    decreases |logs|
  {
    if logs == [] {
    } else if Compare(s, x, logs[0]) < 0 {
      SortedHead(s, logs);
      assert logs == [logs[0]] + logs[1..];
      ConsSorted(s, x, logs);
    } else {
      SortedTail(s, logs);
      SortedHead(s, logs);
      InsertSorted(s, x, logs[1..]);
      InsertKeepsBound(s, SortKey(s, logs[0]), x, logs[1..]);
      ConsSorted(s, logs[0], Insert(s, x, logs[1..]));
    }
  }

  /** `logs.sort(comparator)`: a stable insertion sort driven by the comparator.
      The result is a rearrangement of the logs in comparator order; that
      ties keep their input order is `SortedLogsStable`. */
  function SortedLogs(s: SortState, logs: seq<Log>): (r: seq<Log>)
    ensures multiset(r) == multiset(logs)
    ensures Sorted(s, r)
    decreases |logs|
  {
    if logs == [] then []
    else
      var init := logs[..|logs| - 1];
      assert logs == init + [logs[|logs| - 1]];
      var sorted := SortedLogs(s, init);
      InsertSorted(s, logs[|logs| - 1], sorted);
      Insert(s, logs[|logs| - 1], sorted)
  }

  /** Sorted by timestamp ascending: timestamps never decrease down the table. */
  lemma AscendingByTimestamp(logs: seq<Log>)
    ensures var r := SortedLogs(SortState(Asc, "timestamp"), logs);
      forall i, j :: 0 <= i < j < |r| ==> r[i].timestamp <= r[j].timestamp
  {
    var r := SortedLogs(SortState(Asc, "timestamp"), logs);
    forall i, j | 0 <= i < j < |r| ensures r[i].timestamp <= r[j].timestamp {
      assert Compare(SortState(Asc, "timestamp"), r[i], r[j]) <= 0;
    }
  }

  /** Sorted by timestamp descending: timestamps never increase down the table. */
  lemma DescendingByTimestamp(logs: seq<Log>)
    ensures var r := SortedLogs(SortState(Desc, "timestamp"), logs);
      forall i, j :: 0 <= i < j < |r| ==> r[i].timestamp >= r[j].timestamp
  {
    var r := SortedLogs(SortState(Desc, "timestamp"), logs);
    forall i, j | 0 <= i < j < |r| ensures r[i].timestamp >= r[j].timestamp {
      assert Compare(SortState(Desc, "timestamp"), r[i], r[j]) <= 0;
    }
  }

  /** A log that compares at or above everything already placed goes at the end. */
  lemma {:induction false} InsertAtEnd(s: SortState, x: Log, logs: seq<Log>)
    requires forall k :: 0 <= k < |logs| ==> SortKey(s, logs[k]) <= SortKey(s, x)
    ensures Insert(s, x, logs) == logs + [x]
    decreases |logs|
  {
    if logs != [] {
      InsertAtEnd(s, x, logs[1..]);
      assert [logs[0]] + (logs[1..] + [x]) == logs + [x];
    }
  }

  lemma SortedPrefix(s: SortState, logs: seq<Log>)
    requires Sorted(s, logs) && logs != []
    ensures Sorted(s, logs[..|logs| - 1])
  {
    var init := logs[..|logs| - 1];
    forall i, j | 0 <= i < j < |init| ensures Compare(s, init[i], init[j]) <= 0 {
      assert init[i] == logs[i] && init[j] == logs[j];
    }
  }

  /** The last of sorted logs keys at or above every earlier one. */
  lemma SortedLast(s: SortState, logs: seq<Log>)
    requires Sorted(s, logs) && logs != []
    ensures forall k :: 0 <= k < |logs| - 1 ==> SortKey(s, logs[k]) <= SortKey(s, logs[|logs| - 1])
  {
    forall k | 0 <= k < |logs| - 1 ensures SortKey(s, logs[k]) <= SortKey(s, logs[|logs| - 1]) {
      assert Compare(s, logs[k], logs[|logs| - 1]) <= 0;
    }
  }

  /** One step of the sort: the last log is inserted into the sorted rest. */
  lemma SortedLogsStep(s: SortState, logs: seq<Log>)
    requires logs != []
    ensures SortedLogs(s, logs) == Insert(s, logs[|logs| - 1], SortedLogs(s, logs[..|logs| - 1]))
  {
  }

  /** Sorting logs that are already in comparator order changes nothing, so
      re-sorting the state array on every render is harmless. */
  lemma {:induction false} SortingSortedIsIdentity(s: SortState, logs: seq<Log>)
    requires Sorted(s, logs)
    ensures SortedLogs(s, logs) == logs
    decreases |logs|
  {
    if logs != [] {
      var init, x := logs[..|logs| - 1], logs[|logs| - 1];
      SortedPrefix(s, logs);
      SortedLast(s, logs);
      calc {
        SortedLogs(s, logs);
        == { SortedLogsStep(s, logs); }
        Insert(s, x, SortedLogs(s, init));
        == { SortingSortedIsIdentity(s, init); }
        Insert(s, x, init);
        == { InsertAtEnd(s, x, init); }
        init + [x];
        == { assert init + [x] == logs; }
        logs;
      }
    }
  }

  /** Under any column but the timestamp the comparator is always 0 and the
      logs keep the order they arrived in. */
  lemma OtherColumnKeepsOrder(s: SortState, logs: seq<Log>)
    requires s.orderBy != "timestamp"
    ensures SortedLogs(s, logs) == logs
  {
    SortingSortedIsIdentity(s, logs);
  }

  predicate HasKey(s: SortState, k: int, l: Log) {
    SortKey(s, l) == k
  }

  /** The logs that tie at key `k`, in the order they appear. */
  function Tie(s: SortState, k: int, logs: seq<Log>): (r: seq<Log>)
    ensures forall l :: l in r <==> l in logs && SortKey(s, l) == k
  {
    Filter(logs, l => HasKey(s, k, l))
  }

  lemma TieAppend(s: SortState, k: int, a: seq<Log>, b: seq<Log>)
    ensures Tie(s, k, a + b) == Tie(s, k, a) + Tie(s, k, b)
  {
    FilterAppend(a, b, l => HasKey(s, k, l));
  }

  lemma TieSingle(s: SortState, k: int, x: Log)
    ensures Tie(s, k, [x]) == if SortKey(s, x) == k then [x] else []
  {
    assert [x][1..] == [];
  }

  /** No log of sorted logs keys below the first one. */
  lemma TieBelowHead(s: SortState, k: int, logs: seq<Log>)
    requires Sorted(s, logs) && logs != [] && k < SortKey(s, logs[0])
    ensures Tie(s, k, logs) == []
  {
    forall l | l in logs ensures !HasKey(s, k, l) {
      var j :| 0 <= j < |logs| && logs[j] == l;
      if j > 0 {
        assert Compare(s, logs[0], logs[j]) <= 0;
      }
    }
  }

  /** Inserting into sorted logs puts `x` after every log it ties with. */
  lemma {:induction false} InsertTie(s: SortState, k: int, x: Log, logs: seq<Log>)
    requires Sorted(s, logs)
    ensures Tie(s, k, Insert(s, x, logs)) == Tie(s, k, logs) + Tie(s, k, [x])
    decreases |logs|
  {
    TieSingle(s, k, x);
    if logs == [] {
      assert Tie(s, k, logs) == [];
    } else if Compare(s, x, logs[0]) < 0 {
      TieAppend(s, k, [x], logs);
      if SortKey(s, x) == k {
        TieBelowHead(s, k, logs);
      }
    } else {
      var h, tail := logs[0], logs[1..];
      assert logs == [h] + tail;
      SortedTail(s, logs);
      InsertTie(s, k, x, tail);
      TieAppend(s, k, [h], Insert(s, x, tail));
      TieAppend(s, k, [h], tail);
    }
  }

  /** `Array.prototype.sort` is stable: logs that compare equal keep the
      order they arrived in. */
  lemma {:induction false} SortedLogsStable(s: SortState, k: int, logs: seq<Log>)
    ensures Tie(s, k, SortedLogs(s, logs)) == Tie(s, k, logs)
    decreases |logs|
  {
    if logs != [] {
      var init, x := logs[..|logs| - 1], logs[|logs| - 1];
      calc {
        Tie(s, k, SortedLogs(s, logs));
        == { SortedLogsStep(s, logs); }
        Tie(s, k, Insert(s, x, SortedLogs(s, init)));
        == { InsertTie(s, k, x, SortedLogs(s, init)); }
        Tie(s, k, SortedLogs(s, init)) + Tie(s, k, [x]);
        == { SortedLogsStable(s, k, init); }
        Tie(s, k, init) + Tie(s, k, [x]);
        == { TieAppend(s, k, init, [x]); }
        Tie(s, k, init + [x]);
        == { assert init + [x] == logs; }
        Tie(s, k, logs);
      }
    }
  }

  /** The page's state, as the component's `useState` hooks hold it. */
  class LogsView {
    var logs: seq<Log>
    var sort: SortState
    const pager: Pager

    constructor ()
      ensures logs == [] && sort == InitialSort
      ensures fresh(pager) && pager.page == 0 && pager.rowsPerPage == 5
    {
      logs := [];
      sort := InitialSort;
      pager := new Pager();
    }

    /** `count={logs.length}`. */
    function Count(): (n: nat)
      reads this
      ensures n == |logs|
    {
      |logs|
    }

    /** `fetchLogs`: a successful response replaces the logs, a failure keeps them. */
    method Loaded(response: Option<seq<Log>>)
      modifies this
      ensures logs == (if response.Some? then response.value else old(logs))
      ensures sort == old(sort)
    {
      if response.Some? {
        logs := response.value;
      }
    }

    /** A click on a sortable column header. */
    method RequestSortOn(property: string)
      modifies this
      ensures sort == RequestSort(old(sort), property)
      ensures logs == old(logs)
    {
      sort := RequestSort(sort, property);
    }

    /** A render: `logs.sort` reorders the state array itself, and the table
        shows the current page of the result. */
    method Render() returns (rows: seq<Log>)
      modifies this
      ensures logs == SortedLogs(old(sort), old(logs))
      ensures multiset(logs) == multiset(old(logs)) && Sorted(sort, logs)
      ensures sort == old(sort)
      ensures rows == pager.Visible(logs)
    {
      logs := SortedLogs(sort, logs);
      rows := pager.Visible(logs);
    }
  }
}
