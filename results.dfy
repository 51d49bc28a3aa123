/**
 * What a session records and reports: one record per correctly answered
 * trial, the per-kind average latency shown at the end, and the rows of the
 * results file (a header row, then one row per record in insertion order).
 */
module Results {
  import opened Wrappers
  import opened TrialPlan

  /** One correctly answered trial: its kind, its direction and the latency in seconds. */
  datatype Record = Record(kind: string, direction: string, latency: real)

  // ---------------------------------------------------------------------------
  // Per-kind averages

  /** Some record has the given kind. */
  predicate HasKind(rs: seq<Record>, kind: string)
  {
    rs != [] && (rs[0].kind == kind || HasKind(rs[1..], kind))
  }

  /** Latencies of the records of one kind, in insertion order. */
  function LatenciesOf(rs: seq<Record>, kind: string): (samples: seq<real>)
    ensures |samples| <= |rs|
    ensures !HasKind(rs, kind) ==> samples == []
    ensures HasKind(rs, kind) ==> samples != []
  {
    if rs == [] then []
    else (if rs[0].kind == kind then [rs[0].latency] else []) + LatenciesOf(rs[1..], kind)
  }

  function Sum(xs: seq<real>): real
  {
    if xs == [] then 0.0 else xs[0] + Sum(xs[1..])
  }

  /** Arithmetic mean, and 0 for no samples (not an error). */
  function Mean(xs: seq<real>): (m: real)
    ensures xs == [] ==> m == 0.0
    ensures m * (|xs| as real) == Sum(xs)
  {
    if xs == [] then 0.0 else Sum(xs) / (|xs| as real)
  }

  /** The average shown for one kind at the end of a session. */
  function AverageFor(rs: seq<Record>, kind: string): (avg: real)
    ensures !HasKind(rs, kind) ==> avg == 0.0
  {
    Mean(LatenciesOf(rs, kind))
  }

  /** `HasKind` is the existence of a record of that kind. */
  lemma {:induction false} HasKindExists(rs: seq<Record>, kind: string)
    ensures HasKind(rs, kind) <==> exists i :: 0 <= i < |rs| && rs[i].kind == kind
  {
    if rs != [] {
      HasKindExists(rs[1..], kind);
      if exists i :: 0 <= i < |rs| && rs[i].kind == kind {
        var i :| 0 <= i < |rs| && rs[i].kind == kind;
        if i > 0 {
          assert rs[1..][i - 1].kind == kind;
        }
      }
      if HasKind(rs[1..], kind) {
        var i :| 0 <= i < |rs[1..]| && rs[1..][i].kind == kind;
        assert rs[i + 1].kind == kind;
      }
    }
  }

  /** A kind with no record averages to exactly 0. */
  lemma {:induction false} AverageOfAbsentKind(rs: seq<Record>, kind: string)
    requires forall i :: 0 <= i < |rs| ==> rs[i].kind != kind
    ensures LatenciesOf(rs, kind) == []
    ensures AverageFor(rs, kind) == 0.0
  {
    if rs != [] {
      AverageOfAbsentKind(rs[1..], kind);
    }
  }

  /** Recording a trial adds its latency to the samples of its own kind only, at the end. */
  lemma {:induction false} LatenciesOfAppend(rs: seq<Record>, r: Record, kind: string)
    ensures LatenciesOf(rs + [r], kind)
         == LatenciesOf(rs, kind) + (if r.kind == kind then [r.latency] else [])
  {
    if rs == [] {
      assert rs + [r] == [r];
    } else {
      var head := if rs[0].kind == kind then [rs[0].latency] else [];
      var tail := if r.kind == kind then [r.latency] else [];
      assert (rs + [r])[0] == rs[0];
      assert (rs + [r])[1..] == rs[1..] + [r];
      LatenciesOfAppend(rs[1..], r, kind);
      calc {
        LatenciesOf(rs + [r], kind);
        head + LatenciesOf(rs[1..] + [r], kind);
        head + (LatenciesOf(rs[1..], kind) + tail);
        (head + LatenciesOf(rs[1..], kind)) + tail;
      }
    }
  }

  /** Each sample of a kind is the latency of some record of that kind. */
  lemma {:induction false} LatencyComesFromRecord(rs: seq<Record>, kind: string, k: nat)
    requires k < |LatenciesOf(rs, kind)|
    ensures exists i :: 0 <= i < |rs| && rs[i].kind == kind && rs[i].latency == LatenciesOf(rs, kind)[k]
  {
    var head := if rs[0].kind == kind then [rs[0].latency] else [];
    if k < |head| {
      assert rs[0].kind == kind && rs[0].latency == LatenciesOf(rs, kind)[k];
    } else {
      LatencyComesFromRecord(rs[1..], kind, k - |head|);
      var i :| 0 <= i < |rs[1..]| && rs[1..][i].kind == kind
               && rs[1..][i].latency == LatenciesOf(rs[1..], kind)[k - |head|];
      assert rs[i + 1] == rs[1..][i];
    }
  }

  lemma {:induction false} SumBounds(xs: seq<real>, lo: real, hi: real)
    requires forall i :: 0 <= i < |xs| ==> lo <= xs[i] <= hi
    ensures (|xs| as real) * lo <= Sum(xs) <= (|xs| as real) * hi
  {
    if xs != [] {
      SumBounds(xs[1..], lo, hi);
    }
  }

  /** The mean of samples that all lie in [lo, hi] lies in [lo, hi] too. */
  lemma MeanBounds(xs: seq<real>, lo: real, hi: real)
    requires xs != []
    requires forall i :: 0 <= i < |xs| ==> lo <= xs[i] <= hi
    ensures lo <= Mean(xs) <= hi
  {
    var n := |xs| as real;
    SumBounds(xs, lo, hi);
    assert Mean(xs) * n == Sum(xs);
  }

  /** The kinds of the records, in insertion order. */
  function KindsOf(rs: seq<Record>): (ks: seq<string>)
    ensures |ks| == |rs| && forall i :: 0 <= i < |rs| ==> ks[i] == rs[i].kind
  {
    seq(|rs|, i requires 0 <= i < |rs| => rs[i].kind)
  }

  /** The number of samples averaged for a kind is the number of records of that kind. */
  lemma {:induction false} SampleCount(rs: seq<Record>, kind: string)
    ensures |LatenciesOf(rs, kind)| == Count(KindsOf(rs), kind)
  {
    if rs != [] {
      assert KindsOf(rs)[1..] == KindsOf(rs[1..]);
      SampleCount(rs[1..], kind);
    }
  }

  /** The records so far follow the kind-major plan: record `i` has the kind planned for trial `i`. */
  predicate FollowsPlan(rs: seq<Record>, kinds: seq<string>, repeats: int)
  {
    |rs| <= Total(|kinds|, repeats)
    && forall i :: 0 <= i < |rs| ==> rs[i].kind == PlanKind(kinds, repeats, i)
  }

  /**
   * A completed session (as many records as the plan has trials) of distinct kinds
   * averages exactly `repeats` samples for every kind.
   */
  lemma EachKindSampledRepeatsTimes(rs: seq<Record>, kinds: seq<string>, repeats: int, j: nat)
    requires FollowsPlan(rs, kinds, repeats) && |rs| == Total(|kinds|, repeats)
    requires Distinct(kinds) && j < |kinds| && repeats > 0
    ensures |LatenciesOf(rs, kinds[j])| == repeats
  {
    assert KindsOf(rs) == Plan(kinds, repeats);
    SampleCount(rs, kinds[j]);
    EachKindPlannedRepeatsTimes(kinds, repeats, j);
  }

  /** The loop of the results screen: one average per kind, in the order the kinds are listed. */
  method KindAverages(kinds: seq<string>, rs: seq<Record>) returns (avgs: seq<real>)
    ensures |avgs| == |kinds|
    ensures forall j :: 0 <= j < |kinds| ==> avgs[j] == Mean(LatenciesOf(rs, kinds[j]))
  {
    avgs := [];
    for j := 0 to |kinds|
      invariant |avgs| == j
      invariant forall k :: 0 <= k < j ==> avgs[k] == Mean(LatenciesOf(rs, kinds[k]))
    {
      var samples := LatenciesOf(rs, kinds[j]);
      var avg := if |samples| > 0 then Sum(samples) / (|samples| as real) else 0.0;
      avgs := avgs + [avg];
    }
  }

  // ---------------------------------------------------------------------------
  // The results file

  /** A cell of the results file: text, or a response time in seconds. */
  datatype Cell = Text(text: string) | Seconds(seconds: real)

  type Row = seq<Cell>

  const Header: Row := [Text("Test Type"), Text("Direction"), Text("Response Time (seconds)")]

  function RowOf(r: Record): (row: Row)
    ensures ParseRow(row) == Some(r)
  {
    [Text(r.kind), Text(r.direction), Seconds(r.latency)]
  }

  function RowsOf(rs: seq<Record>): (rows: seq<Row>)
    ensures |rows| == |rs|
    ensures forall i {:trigger rows[i]} :: 0 <= i < |rs| ==> rows[i] == RowOf(rs[i])
  {
    if rs == [] then [] else [RowOf(rs[0])] + RowsOf(rs[1..])
  }

  /** The whole file: the header row, then one row per record. */
  function ExportTable(rs: seq<Record>): (table: seq<Row>)
    ensures |table| == |rs| + 1
    ensures table[0] == Header
    ensures forall i {:trigger table[i]} :: 1 <= i < |table| ==> table[i] == RowOf(rs[i - 1])
  {
    [Header] + RowsOf(rs)
  }

  lemma {:induction false} RowsOfAppend(rs: seq<Record>, r: Record)
    ensures RowsOf(rs + [r]) == RowsOf(rs) + [RowOf(r)]
  {
    if rs == [] {
      assert rs + [r] == [r];
    } else {
      assert (rs + [r])[1..] == rs[1..] + [r];
      RowsOfAppend(rs[1..], r);
    }
  }

  /** The loop that writes the file: the header, then every record in turn. */
  method WriteRows(rs: seq<Record>) returns (rows: seq<Row>)
    ensures rows == ExportTable(rs)
  {
    rows := [Header];
    for i := 0 to |rs|
      invariant rows == ExportTable(rs[..i])
    {
      RowsOfAppend(rs[..i], rs[i]);
      assert rs[..i + 1] == rs[..i] + [rs[i]];
      rows := rows + [RowOf(rs[i])];
    }
    assert rs[..|rs|] == rs;
  }

  /** Reading one row back; a row of another shape is not a record. */
  function ParseRow(row: Row): Option<Record>
  {
    if |row| == 3 && row[0].Text? && row[1].Text? && row[2].Seconds?
    then Some(Record(row[0].text, row[1].text, row[2].seconds))
    else None
  }

  function ParseRows(rows: seq<Row>): Option<seq<Record>>
  {
    if rows == [] then Some([])
    else match (ParseRow(rows[0]), ParseRows(rows[1..]))
      case (Some(r), Some(rest)) => Some([r] + rest)
      case _ => None
  }

  /** Reading a results file back: the header must come first. */
  function ParseTable(table: seq<Row>): Option<seq<Record>>
  {
    if table == [] || table[0] != Header then None else ParseRows(table[1..])
  }

  lemma ParseRowOf(r: Record, row: Row)
    ensures ParseRow(row) == Some(r) <==> row == RowOf(r)
  {
    if ParseRow(row) == Some(r) {
      assert row == [row[0], row[1], row[2]];
    }
  }

  lemma {:induction false} ParseRowsOf(rs: seq<Record>, rows: seq<Row>)
    ensures ParseRows(rows) == Some(rs) <==> rows == RowsOf(rs)
  {
    if rows == [] {
    } else if rs == [] {
    } else {
      assert RowsOf(rs) == [RowOf(rs[0])] + RowsOf(rs[1..]);
      ParseRowOf(rs[0], rows[0]);
      ParseRowsOf(rs[1..], rows[1..]);
      if ParseRows(rows) == Some(rs) {
        assert ParseRow(rows[0]) == Some(rs[0]) && ParseRows(rows[1..]) == Some(rs[1..]);
        assert rows == [rows[0]] + rows[1..];
      }
      if rows == RowsOf(rs) {
        assert rows[0] == RowOf(rs[0]) && rows[1..] == RowsOf(rs[1..]);
        assert rs == [rs[0]] + rs[1..];
      }
    }
  }

  /** Reading the exported file reproduces the records in order, and only an exported file reads back as them. */
  lemma ExportRoundTrip(rs: seq<Record>, table: seq<Row>)
    ensures ParseTable(table) == Some(rs) <==> table == ExportTable(rs)
  {
    ParseRowsOf(rs, if table == [] then [] else table[1..]);
    if table == ExportTable(rs) {
      assert table[1..] == RowsOf(rs);
    }
    if ParseTable(table) == Some(rs) {
      assert table == [table[0]] + table[1..];
    }
  }
}
