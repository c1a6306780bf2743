/**
  The authority analytics endpoint (`GET` in app/authority/analytics/route.ts).
  It reads the `status` column of every issue row and folds the rows into a
  total and four named buckets through a fixed status-to-bucket table, using
  the storage vocabulary `open | in_progress | resolved | closed`. A status
  outside the table is counted in the total and in no bucket.
 */
module AnalyticsRoute {
  import opened Types

  /** One row of the issues table, as selected by `select("status")`. */
  datatype Row = Row(status: string)

  datatype Bucket = OpenIssues | InProgressIssues | ResolvedIssues | ClosedIssues

  datatype Stats = Stats(
    totalIssues: nat,
    openIssues: nat,
    inProgressIssues: nat,
    resolvedIssues: nat,
    closedIssues: nat
  )

  /** What the store query yields: an error, or a possibly-null list of rows. */
  datatype StoreResult = StoreError(message: string) | StoreOk(data: Option<seq<Row>>)

  datatype Response = Ok(stats: Stats) | Failure(code: int, error: string)

  /** The stored status each bucket collects. */
  function BucketStatus(b: Bucket): string
  {
    match b
    case OpenIssues => "open"
    case InProgressIssues => "in_progress"
    case ResolvedIssues => "resolved"
    case ClosedIssues => "closed"
  }

  /** The `dbToBucket` table: exactly the four storage statuses have a bucket. */
  function DbToBucket(status: string): (r: Option<Bucket>)
    ensures forall b :: r == Some(b) <==> status == BucketStatus(b)
  {
    match status
    case "open" => Some(OpenIssues)
    case "in_progress" => Some(InProgressIssues)
    case "resolved" => Some(ResolvedIssues)
    case "closed" => Some(ClosedIssues)
    case _ => None
  }

  /** `initialStats`: every counter starts at zero. */
  const InitialStats := Stats(0, 0, 0, 0, 0)

  function BucketCount(st: Stats, b: Bucket): nat
  {
    match b
    case OpenIssues => st.openIssues
    case InProgressIssues => st.inProgressIssues
    case ResolvedIssues => st.resolvedIssues
    case ClosedIssues => st.closedIssues
  }

  /** `stats[bucket] += 1`: that bucket grows by one, nothing else changes. */
  function Bump(st: Stats, b: Bucket): (r: Stats)
    ensures r.totalIssues == st.totalIssues
    ensures BucketCount(r, b) == BucketCount(st, b) + 1
    ensures forall c :: c != b ==> BucketCount(r, c) == BucketCount(st, c)
  {
    match b
    case OpenIssues => st.(openIssues := st.openIssues + 1)
    case InProgressIssues => st.(inProgressIssues := st.inProgressIssues + 1)
    case ResolvedIssues => st.(resolvedIssues := st.resolvedIssues + 1)
    case ClosedIssues => st.(closedIssues := st.closedIssues + 1)
  }

  /** The number of rows whose status is exactly `s`, independently of the table. */
  function CountStatus(rows: seq<Row>, s: string): nat
  {
    if |rows| == 0 then 0
    else CountStatus(rows[..|rows| - 1], s) + (if rows[|rows| - 1].status == s then 1 else 0)
  }

  /** The number of rows whose status has no bucket. */
  function Unbucketed(rows: seq<Row>): nat
  {
    if |rows| == 0 then 0
    else Unbucketed(rows[..|rows| - 1]) + (if DbToBucket(rows[|rows| - 1].status).None? then 1 else 0)
  }

  /** The reference result: the total, and per bucket the rows carrying its status. */
  function Expected(rows: seq<Row>): Stats
  {
    Stats(
      |rows|,
      CountStatus(rows, "open"),
      CountStatus(rows, "in_progress"),
      CountStatus(rows, "resolved"),
      CountStatus(rows, "closed"))
  }

  /**
    The `GET` handler. A store error gives 500 with an error body; null data
    gives the all-zero stats; otherwise the total is the number of rows and
    each bucket the number of rows with its status.
   */
  method Get(result: StoreResult) returns (resp: Response)
    ensures result.StoreError? <==> resp.Failure?
    ensures resp.Failure? ==> resp == Failure(500, "Failed to fetch analytics")
    ensures result.StoreOk? && result.data.None? ==> resp == Ok(InitialStats)
    ensures result.StoreOk? && result.data.Some? ==> resp == Ok(Expected(result.data.value))
  {
    if result.StoreError? {
      return Failure(500, "Failed to fetch analytics");
    }
    var stats := InitialStats;
    if result.data.Some? {
      var rows := result.data.value;
      stats := stats.(totalIssues := |rows|);
      for i := 0 to |rows|
        invariant stats.totalIssues == |rows|
        invariant stats.openIssues == CountStatus(rows[..i], "open")
        invariant stats.inProgressIssues == CountStatus(rows[..i], "in_progress")
        invariant stats.resolvedIssues == CountStatus(rows[..i], "resolved")
        invariant stats.closedIssues == CountStatus(rows[..i], "closed")
      {
        assert rows[..i + 1][..i] == rows[..i];
        var bucket := DbToBucket(rows[i].status);
        if bucket.Some? {
          stats := Bump(stats, bucket.value);
        }
      }
      assert rows[..|rows|] == rows;
    }
    return Ok(stats);
  }

  /**
    Appending one row raises the total by one and, when its status has a
    bucket, exactly that bucket by one; an unmapped status raises no bucket.
   */
  lemma AppendRow(rows: seq<Row>, r: Row)
    ensures var before := Expected(rows).(totalIssues := |rows| + 1);
      match DbToBucket(r.status)
      case Some(b) => Expected(rows + [r]) == Bump(before, b)
      case None => Expected(rows + [r]) == before
  {
    assert (rows + [r])[..|rows|] == rows;
  }

  /** Every row is either in exactly one bucket or unbucketed. */
  lemma {:induction false} BucketPartition(rows: seq<Row>)
    ensures CountStatus(rows, "open") + CountStatus(rows, "in_progress")
      + CountStatus(rows, "resolved") + CountStatus(rows, "closed")
      + Unbucketed(rows) == |rows|
  {
    if |rows| > 0 {
      BucketPartition(rows[..|rows| - 1]);
    }
  }

  /** No row is unbucketed exactly when every status is one of the four keys. */
  lemma {:induction false} UnbucketedZero(rows: seq<Row>)
    ensures Unbucketed(rows) == 0 <==> forall i :: 0 <= i < |rows| ==> DbToBucket(rows[i].status).Some?
  {
    if |rows| > 0 {
      var init := rows[..|rows| - 1];
      UnbucketedZero(init);
      assert forall i :: 0 <= i < |init| ==> init[i] == rows[i];
    }
  }

  /**
    The four buckets never add up to more than the total, and they add up to
    exactly the total when and only when every row's status is mapped.
   */
  lemma BucketSum(rows: seq<Row>)
    ensures var st := Expected(rows);
      st.openIssues + st.inProgressIssues + st.resolvedIssues + st.closedIssues <= st.totalIssues
    ensures var st := Expected(rows);
      st.openIssues + st.inProgressIssues + st.resolvedIssues + st.closedIssues == st.totalIssues
      <==> forall i :: 0 <= i < |rows| ==> DbToBucket(rows[i].status).Some?
  {
    BucketPartition(rows);
    UnbucketedZero(rows);
  }

  /** A per-status count is the multiplicity of that status's row. */
  lemma {:induction false} CountIsMultiplicity(rows: seq<Row>, s: string)
    ensures CountStatus(rows, s) == multiset(rows)[Row(s)]
  {
    if |rows| > 0 {
      var init := rows[..|rows| - 1];
      CountIsMultiplicity(init, s);
      assert rows == init + [rows[|rows| - 1]];
      assert multiset(rows) == multiset(init) + multiset{rows[|rows| - 1]};
    }
  }

  /** The result depends only on which rows there are, not on their order. */
  lemma OrderIndependent(rows: seq<Row>, shuffled: seq<Row>)
    requires multiset(rows) == multiset(shuffled)
    ensures Expected(rows) == Expected(shuffled)
  {
    assert |rows| == |multiset(rows)| == |shuffled|;
    forall s: string
      ensures CountStatus(rows, s) == CountStatus(shuffled, s)
    {
      CountIsMultiplicity(rows, s);
      CountIsMultiplicity(shuffled, s);
    }
  }
}
