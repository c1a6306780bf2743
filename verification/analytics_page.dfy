/**
  The data shaping on the authority analytics page
  (app/authority/analytics/page.tsx): the category and priority records of
  the fetched analytics become pie-chart entries with capitalised names,
  and the chart cells take their colours from a five-colour palette by
  position.
 */
module AnalyticsPage {
  import opened Types
  import opened Text

  /** The fetched analytics; the two records are lists of entries in enumeration order. */
  datatype Analytics = Analytics(
    totalIssues: int,
    resolvedIssues: int,
    pendingIssues: int,
    avgResolutionTime: real,
    satisfactionRate: real,
    issuesByCategory: Option<seq<(string, int)>>,
    issuesByPriority: Option<seq<(string, int)>>
  )

  datatype ChartEntry = ChartEntry(name: string, value: int)

  /**
    `Object.entries(record).map(([name, value]) => ...)`: one entry per
    record entry, in the same order, the value unchanged and the name
    capitalised; an absent record gives no entries.
   */
  function ChartData(record: Option<seq<(string, int)>>): (r: seq<ChartEntry>)
    ensures record.None? ==> r == []
    ensures record.Some? ==> |r| == |record.value|
    ensures record.Some? ==> forall i :: 0 <= i < |r| ==>
      r[i].value == record.value[i].1 && r[i].name == Capitalize(record.value[i].0)
  {
    match record
    case None => []
    case Some(entries) =>
      seq(|entries|, i requires 0 <= i < |entries| => ChartEntry(Capitalize(entries[i].0), entries[i].1))
  }

  /** `categoryData`: empty until analytics with a category record arrive. */
  function CategoryData(analytics: Option<Analytics>): (r: seq<ChartEntry>)
    ensures analytics.None? || analytics.value.issuesByCategory.None? ==> r == []
    ensures analytics.Some? && analytics.value.issuesByCategory.Some? ==>
      |r| == |analytics.value.issuesByCategory.value|
  {
    if analytics.Some? then ChartData(analytics.value.issuesByCategory) else []
  }

  /** `priorityData`: empty until analytics with a priority record arrive. */
  function PriorityData(analytics: Option<Analytics>): (r: seq<ChartEntry>)
    ensures analytics.None? || analytics.value.issuesByPriority.None? ==> r == []
    ensures analytics.Some? && analytics.value.issuesByPriority.Some? ==>
      |r| == |analytics.value.issuesByPriority.value|
  {
    if analytics.Some? then ChartData(analytics.value.issuesByPriority) else []
  }

  /**
    Each chart name has its key's length and differs from the key only in
    letter case, so an empty key stays empty and the key can be told from
    the name up to case.
   */
  lemma ChartNamesFollowKeys(entries: seq<(string, int)>)
    ensures var r := ChartData(Some(entries));
      forall i :: 0 <= i < |r| ==>
        |r[i].name| == |entries[i].0| && Lower(r[i].name) == Lower(entries[i].0)
        && (entries[i].0 == "" ==> r[i].name == "")
  {
    forall i | 0 <= i < |entries|
      ensures Lower(Capitalize(entries[i].0)) == Lower(entries[i].0)
    {
      CapitalizeKeepsLower(entries[i].0);
    }
  }

  /** `COLORS`. */
  const Palette: seq<string> := ["#10b981", "#3b82f6", "#f59e0b", "#ef4444", "#8b5cf6"]

  /** `COLORS[index % COLORS.length]`: always a palette colour. */
  function CellColor(index: nat): (c: string)
    ensures c in Palette
  {
    Palette[index % |Palette|]
  }

  /**
    Cell colours repeat every five entries, and any five consecutive
    entries get five different colours.
   */
  lemma CellColorsCycle(i: nat, j: nat)
    ensures CellColor(i + 5) == CellColor(i)
    ensures i < j < i + 5 ==> CellColor(i) != CellColor(j)
  {
    assert (i + 5) % 5 == i % 5;
    if i < j < i + 5 {
      assert i % 5 != j % 5;
    }
  }
}
