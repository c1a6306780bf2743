/**
  The citizen's "My Issues" page (app/citizen/issues/page.tsx): the filter
  effect that narrows the fetched issues by a free-text search over title
  and description, a status selector and a category selector, and the
  "Showing k of n issues" summary beneath the list.
 */
module CitizenIssues {
  import opened Types
  import opened Text
  import opened Seqs

  /** The search term occurs, case-insensitively, in the title or the description. */
  function MatchesSearch(term: string): Issue -> bool
  {
    (i: Issue) => Includes(Lower(i.title), Lower(term)) || Includes(Lower(i.description), Lower(term))
  }

  /** An issue passes every active criterion; `"all"` and the empty term are inactive. */
  predicate Keep(searchTerm: string, statusFilter: string, categoryFilter: string, i: Issue)
  {
    && (searchTerm != "" ==> MatchesSearch(searchTerm)(i))
    && (statusFilter != "all" ==> StatusName(i.status) == statusFilter)
    && (categoryFilter != "all" ==> CategoryName(i.category) == categoryFilter)
  }

  function KeepAll(searchTerm: string, statusFilter: string, categoryFilter: string): Issue -> bool
  {
    (i: Issue) => Keep(searchTerm, statusFilter, categoryFilter, i)
  }

  /** The filter effect: search, then status, then category. */
  function Apply(issues: seq<Issue>, searchTerm: string, statusFilter: string, categoryFilter: string)
    : (r: seq<Issue>)
    ensures |r| <= |issues|
    ensures searchTerm == "" && statusFilter == "all" && categoryFilter == "all" ==> r == issues
  {
    var bySearch := if searchTerm != "" then Filter(issues, MatchesSearch(searchTerm)) else issues;
    var byStatus := if statusFilter != "all" then Filter(bySearch, StatusIs(statusFilter)) else bySearch;
    if categoryFilter != "all" then Filter(byStatus, CategoryIs(categoryFilter)) else byStatus
  }

  /** The three filters together select exactly the issues passing every active criterion. */
  lemma ApplyIsConjunction(issues: seq<Issue>, searchTerm: string, statusFilter: string, categoryFilter: string)
    ensures Apply(issues, searchTerm, statusFilter, categoryFilter)
      == Filter(issues, KeepAll(searchTerm, statusFilter, categoryFilter))
  {
    var m := When(searchTerm != "", MatchesSearch(searchTerm));
    var s := When(statusFilter != "all", StatusIs(statusFilter));
    var c := When(categoryFilter != "all", CategoryIs(categoryFilter));
    var keep := KeepAll(searchTerm, statusFilter, categoryFilter);
    FilterWhen(issues, searchTerm != "", MatchesSearch(searchTerm));
    var bySearch := Filter(issues, m);
    FilterWhen(bySearch, statusFilter != "all", StatusIs(statusFilter));
    var byStatus := Filter(bySearch, s);
    FilterWhen(byStatus, categoryFilter != "all", CategoryIs(categoryFilter));
    assert Apply(issues, searchTerm, statusFilter, categoryFilter) == Filter(byStatus, c);
    FilterFilter(issues, m, s);
    FilterFilter(issues, And(m, s), c);
    forall i | i in issues
      ensures And(And(m, s), c)(i) == keep(i)
    {
      assert And(And(m, s), c)(i) == (m(i) && s(i) && c(i));
    }
    FilterExt(issues, And(And(m, s), c), keep);
  }

  /**
    Every shown issue contains the lower-cased term in its lower-cased title
    or description when a term is typed, has the selected status and the
    selected category; every issue that satisfies all of these is shown; and
    the list keeps the fetched order.
   */
  lemma ApplySound(issues: seq<Issue>, searchTerm: string, statusFilter: string, categoryFilter: string)
    ensures var r := Apply(issues, searchTerm, statusFilter, categoryFilter);
      && (forall k :: 0 <= k < |r| ==> Keep(searchTerm, statusFilter, categoryFilter, r[k]))
      && (forall k :: 0 <= k < |issues| && Keep(searchTerm, statusFilter, categoryFilter, issues[k])
            ==> issues[k] in r)
      && IsSubseq(r, issues)
  {
    ApplyIsConjunction(issues, searchTerm, statusFilter, categoryFilter);
    FilterIsSubseq(issues, KeepAll(searchTerm, statusFilter, categoryFilter));
  }

  /** Filtering the filtered list again with the same selections changes nothing. */
  lemma ApplyIdempotent(issues: seq<Issue>, searchTerm: string, statusFilter: string, categoryFilter: string)
    ensures var r := Apply(issues, searchTerm, statusFilter, categoryFilter);
      Apply(r, searchTerm, statusFilter, categoryFilter) == r
  {
    var p := KeepAll(searchTerm, statusFilter, categoryFilter);
    ApplyIsConjunction(issues, searchTerm, statusFilter, categoryFilter);
    ApplyIsConjunction(Filter(issues, p), searchTerm, statusFilter, categoryFilter);
    FilterIdempotent(issues, p);
  }

  /**
    The "Showing k of n issues" line: present only when something is shown,
    and then k is the number shown and n the number fetched.
   */
  function Summary(issues: seq<Issue>, searchTerm: string, statusFilter: string, categoryFilter: string)
    : (r: Option<(nat, nat)>)
    ensures r.Some? <==> |Apply(issues, searchTerm, statusFilter, categoryFilter)| > 0
    ensures r.Some? ==> r.value.0 == |Apply(issues, searchTerm, statusFilter, categoryFilter)|
    ensures r.Some? ==> 0 < r.value.0 <= r.value.1 && r.value.1 == |issues|
  {
    var shown := Apply(issues, searchTerm, statusFilter, categoryFilter);
    if |shown| > 0 then Some((|shown|, |issues|)) else None
  }
}
