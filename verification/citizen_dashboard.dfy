/**
  The citizen dashboard (app/citizen/dashboard/page.tsx): four counters over
  the citizen's issues, the "Recent Issues" card showing at most five of
  them with a "View All Issues" link, and the "Your Impact" card whose
  resolution rate divides by the total.
 */
module CitizenDashboard {
  import opened Types
  import opened Seqs

  datatype Stats = Stats(total: nat, pending: nat, inProgress: nat, resolved: nat)

  /** The number of issues whose status is named `status`. */
  function CountNamed(issues: seq<Issue>, status: string): nat
  {
    |Filter(issues, StatusIs(status))|
  }

  /** The number of issues with status `s`, counted one issue at a time. */
  function Count(issues: seq<Issue>, s: Status): nat
  {
    if |issues| == 0 then 0
    else (if issues[0].status == s then 1 else 0) + Count(issues[1..], s)
  }

  /** Filtering by a status name counts exactly the issues with that status. */
  lemma {:induction false} CountNamedIsCount(issues: seq<Issue>, s: Status)
    ensures CountNamed(issues, StatusName(s)) == Count(issues, s)
  {
    if |issues| > 0 {
      CountNamedIsCount(issues[1..], s);
      assert StatusIs(StatusName(s))(issues[0]) <==> issues[0].status == s;
    }
  }

  /**
    The `stats` object: the total, and for each of the three counted
    statuses the number of issues that have it.
   */
  function ComputeStats(issues: seq<Issue>): (st: Stats)
    ensures st.total == |issues|
    ensures st.pending == Count(issues, Pending)
    ensures st.inProgress == Count(issues, InProgress)
    ensures st.resolved == Count(issues, Resolved)
    ensures st.pending <= st.total && st.inProgress <= st.total && st.resolved <= st.total
  {
    CountNamedIsCount(issues, Pending);
    CountNamedIsCount(issues, InProgress);
    CountNamedIsCount(issues, Resolved);
    Stats(
      |issues|,
      CountNamed(issues, "pending"),
      CountNamed(issues, "in-progress"),
      CountNamed(issues, "resolved"))
  }

  /** Every issue has exactly one of the four status names. */
  lemma {:induction false} StatusPartition(issues: seq<Issue>)
    ensures CountNamed(issues, "pending") + CountNamed(issues, "in-progress")
      + CountNamed(issues, "resolved") + CountNamed(issues, "closed") == |issues|
  {
    if |issues| > 0 {
      StatusPartition(issues[1..]);
    }
  }

  /**
    The three counters add up to the total less the closed issues, so they
    never exceed it and reach it exactly when no issue is closed.
   */
  lemma CountersBelowTotal(issues: seq<Issue>)
    ensures var st := ComputeStats(issues);
      st.pending + st.inProgress + st.resolved == st.total - CountNamed(issues, "closed")
    ensures var st := ComputeStats(issues);
      st.pending + st.inProgress + st.resolved == st.total
      <==> forall k :: 0 <= k < |issues| ==> issues[k].status != Closed
  {
    StatusPartition(issues);
    CountNamedIsCount(issues, Closed);
    CountZeroIffAbsent(issues, Closed);
  }

  /** No issue has status `s` exactly when the count of `s` is zero. */
  lemma {:induction false} CountZeroIffAbsent(issues: seq<Issue>, s: Status)
    ensures Count(issues, s) == 0 <==> forall k :: 0 <= k < |issues| ==> issues[k].status != s
  {
    if |issues| > 0 {
      CountZeroIffAbsent(issues[1..], s);
      assert forall k :: 1 <= k < |issues| ==> issues[k] == issues[1..][k - 1];
    }
  }

  /** What the "Recent Issues" card shows. */
  datatype Recent = NoIssuesYet | Listed(shown: seq<Issue>, viewAll: bool)

  /**
    An empty list shows the "No issues reported yet" prompt; otherwise the
    first five issues (fewer if there are fewer) in list order, with the
    "View All Issues" link exactly when some issues are left out.
   */
  function RecentIssues(issues: seq<Issue>): (r: Recent)
    ensures r.NoIssuesYet? <==> |issues| == 0
    ensures r.Listed? ==> |r.shown| == (if |issues| < 5 then |issues| else 5)
    ensures r.Listed? ==> r.shown == issues[..|r.shown|]
    ensures r.Listed? ==> (r.viewAll <==> |r.shown| < |issues|)
  {
    if |issues| == 0 then NoIssuesYet
    else Listed(issues[..if |issues| < 5 then |issues| else 5], |issues| > 5)
  }

  /**
    The resolution rate of the "Your Impact" card, in percent before
    rounding: the share of resolved issues times 100. The card, and with it
    the division, exists only when there is at least one issue; the rate
    then lies between 0 and 100.
   */
  function ResolutionRate(issues: seq<Issue>): (r: Option<real>)
    ensures r.Some? <==> |issues| > 0
    ensures r.Some? ==> r.value == Count(issues, Resolved) as real / |issues| as real * 100.0
    ensures r.Some? ==> 0.0 <= r.value <= 100.0
  {
    var st := ComputeStats(issues);
    if st.total > 0 then
      var ratio := st.resolved as real / st.total as real;
      FractionAtMostOne(st.resolved as real, st.total as real);
      Some(ratio * 100.0)
    else None
  }

  /** A share of a positive whole lies between 0 and 1. */
  lemma FractionAtMostOne(part: real, whole: real)
    requires 0.0 <= part <= whole && 0.0 < whole
    ensures 0.0 <= part / whole <= 1.0
  {
    var q := part / whole;
    assert q * whole == part;
  }
}
