// The test client's view model: a log trimmed in chunks, tables keyed by callsign, and the bounded
// map of requests awaiting a response.

module MainViewModel {
  const MAX_LOG_ENTRIES: nat := 10000
  const TRIM_COUNT: nat := 1000
  const MAX_PENDING_REQUESTS: nat := 256

  datatype Row = Row(callsign: string, data: string)

  class MainViewModel {
    var logEntries: seq<string>
    var table: seq<Row>
    var pending: map<string, string>

    constructor ()
      ensures logEntries == [] && table == [] && pending == map[]
    {
      logEntries, table, pending := [], [], map[];
    }

    method ClearLog()
      modifies this`logEntries
      ensures logEntries == []
    {
      logEntries := [];
    }

    method AddLog(entry: string)
      modifies this`logEntries
      ensures logEntries == Logged(old(logEntries), entry)
    {
      if |logEntries| >= MAX_LOG_ENTRIES {
        var i := 0;
        while i < TRIM_COUNT
          invariant 0 <= i <= TRIM_COUNT && logEntries == old(logEntries)[i..]
        {
          logEntries := logEntries[1..];
          i := i + 1;
        }
      }
      logEntries := logEntries + [entry];
    }

    // UpsertFlightPlan, UpsertRadarTarget and UpsertController are this method on their own table.
    method Upsert(row: Row)
      modifies this`table
      ensures table == Upserted(old(table), row)
      ensures InPlace(old(table), table, row)
    {
      var i := 0;
      while i < |table| && table[i].callsign != row.callsign
        invariant 0 <= i <= |table| && Find(table, row.callsign, 0) == Find(table, row.callsign, i)
      {
        i := i + 1;
      }
      UpsertsInPlace(table, row);
      table := if i < |table| then table[i := row] else table + [row];
    }

    method TrackRequest(id: string, requestType: string)
      requires |pending| <= 256
      modifies this`pending
      ensures |pending| <= 256
      ensures id in pending && pending[id] == requestType
      ensures |old(pending)| < 256 ==> pending == old(pending)[id := requestType]
      ensures |old(pending)| >= 256 ==>
                exists k :: k in old(pending) && pending == (old(pending) - {k})[id := requestType]
    {
      if |pending| >= MAX_PENDING_REQUESTS {
        var k :| k in pending;
        ghost var before := pending;
        pending := pending - {k};
        assert pending.Keys == before.Keys - {k};
      }
      assert pending[id := requestType].Keys == pending.Keys + {id};
      pending := pending[id := requestType];
    }
  }

  // ----- the log -----

  function Logged(log: seq<string>, entry: string): seq<string> {
    (if |log| >= MAX_LOG_ENTRIES then log[TRIM_COUNT..] else log) + [entry]
  }

  function LogOf(entries: seq<string>): seq<string> {
    if entries == [] then [] else Logged(LogOf(entries[..|entries| - 1]), entries[|entries| - 1])
  }

  function LogLength(n: nat): nat {
    if n <= MAX_LOG_ENTRIES then n else 9001 + (n - 10001) % 1000
  }

  // After n additions the log is the last LogLength(n) of them.
  lemma {:induction false} LogIsSuffix(entries: seq<string>)
    ensures |LogOf(entries)| == LogLength(|entries|) <= |entries|
    ensures LogOf(entries) == entries[|entries| - LogLength(|entries|)..]
    decreases |entries|
  {
    if entries == [] {
    } else {
      var front := entries[..|entries| - 1];
      LogIsSuffix(front);
      LengthStep(|front|);
      SuffixStep(entries, LogLength(|front|), LogLength(|front|) >= MAX_LOG_ENTRIES);
      hide LogLength;
    }
  }

  // The last n of all entries but one, trimmed or not, and the one.
  lemma SuffixStep(entries: seq<string>, n: nat, full: bool)
    requires entries != [] && n < |entries| && (full ==> n >= TRIM_COUNT)
    ensures var front, keep := entries[..|entries| - 1], if full then n - TRIM_COUNT else n;
            var log := front[|front| - n..];
            (if full then log[TRIM_COUNT..] else log) + [entries[|entries| - 1]] == entries[|entries| - (keep + 1)..]
  {
  }

  lemma LengthStep(n: nat)
    ensures LogLength(n + 1) ==
            (if LogLength(n) >= MAX_LOG_ENTRIES then LogLength(n) - TRIM_COUNT else LogLength(n)) + 1
    ensures LogLength(n) <= n && LogLength(n) <= MAX_LOG_ENTRIES
  {
  }

  // ----- the tables -----

  // First position from `i` on with this callsign, or the length.
  function Find(table: seq<Row>, callsign: string, i: nat): (k: nat)
    requires i <= |table|
    ensures i <= k <= |table|
    ensures k < |table| ==> table[k].callsign == callsign
    ensures forall j :: i <= j < k ==> table[j].callsign != callsign
    decreases |table| - i
  {
    if i < |table| && table[i].callsign != callsign then Find(table, callsign, i + 1) else i
  }

  function Upserted(table: seq<Row>, row: Row): seq<Row> {
    var k := Find(table, row.callsign, 0);
    if k < |table| then table[k := row] else table + [row]
  }

  // The first row with this callsign is replaced where it stands, and a new one comes last.
  predicate InPlace(table: seq<Row>, table': seq<Row>, row: Row) {
    if exists i :: 0 <= i < |table| && table[i].callsign == row.callsign then
      && |table'| == |table|
      && forall i :: 0 <= i < |table| ==>
           table'[i] == if table[i].callsign == row.callsign && NewAt(table, i) then row else table[i]
    else table' == table + [row]
  }

  // No earlier row has this one's callsign.
  predicate NewAt(table: seq<Row>, i: nat)
    requires i < |table|
  {
    forall j :: 0 <= j < i ==> table[j].callsign != table[i].callsign
  }

  lemma UpsertsInPlace(table: seq<Row>, row: Row)
    ensures InPlace(table, Upserted(table, row), row)
  {
    var k := Find(table, row.callsign, 0);
    if k < |table| {
      forall i | 0 <= i < |table|
        ensures Upserted(table, row)[i] ==
                if table[i].callsign == row.callsign && NewAt(table, i) then row else table[i]
      {
        if i > k { assert table[k].callsign == row.callsign; }
      }
    }
  }

  predicate Keyed(table: seq<Row>) {
    forall i, j :: 0 <= i < j < |table| ==> table[i].callsign != table[j].callsign
  }

  ghost predicate Represents(table: seq<Row>, m: map<string, Row>) {
    && (forall i :: 0 <= i < |table| ==> table[i].callsign in m && m[table[i].callsign] == table[i])
    && (forall c :: c in m ==> exists i :: 0 <= i < |table| && table[i].callsign == c)
  }

  lemma UpsertRefines(table: seq<Row>, m: map<string, Row>, row: Row)
    requires Keyed(table) && Represents(table, m)
    ensures Keyed(Upserted(table, row)) && Represents(Upserted(table, row), m[row.callsign := row])
  {
    var k, t, n := Find(table, row.callsign, 0), Upserted(table, row), m[row.callsign := row];
    assert t[k] == row;
    forall c | c in n
      ensures exists i :: 0 <= i < |t| && t[i].callsign == c
    {
      if c == row.callsign {
        assert t[k].callsign == c;
      } else {
        var i :| 0 <= i < |table| && table[i].callsign == c;
        assert t[i].callsign == c;
      }
    }
  }

  function UpsertedAll(rows: seq<Row>): seq<Row> {
    if rows == [] then [] else Upserted(UpsertedAll(rows[..|rows| - 1]), rows[|rows| - 1])
  }

  function Latest(rows: seq<Row>): map<string, Row> {
    if rows == [] then map[] else Latest(rows[..|rows| - 1])[rows[|rows| - 1].callsign := rows[|rows| - 1]]
  }

  // Any sequence of upserts keeps one row per callsign: the latest.
  lemma {:induction false} TableIsLatest(rows: seq<Row>)
    ensures Keyed(UpsertedAll(rows)) && Represents(UpsertedAll(rows), Latest(rows))
    decreases |rows|
  {
    if rows == [] {
    } else {
      TableIsLatest(rows[..|rows| - 1]);
      UpsertRefines(UpsertedAll(rows[..|rows| - 1]), Latest(rows[..|rows| - 1]), rows[|rows| - 1]);
    }
  }
}
