/**
  The authority issue list (app/authority/issues/page.tsx): a single search
  box whose term is lower-cased and trimmed, then matched against each
  issue's title, description and location address, any of which may be
  missing.
 */
module AuthorityIssues {
  import opened Types
  import opened Text
  import opened Seqs

  /**
    The page's own row type for what `/api/issues` returns. Title and
    description are declared as strings but the search still guards them
    against being absent, and the location and its address are optional.
   */
  datatype Listing = Listing(
    id: string,
    title: Option<string>,
    description: Option<string>,
    status: string,
    priority: string,
    category: Option<string>,
    address: Option<string>,
    createdAt: Option<string>,
    updatedAt: Option<string>
  )

  /** `value || ""`: an absent string reads as the empty string. */
  function OrEmpty(o: Option<string>): string
  {
    if o.Some? then o.value else ""
  }

  /**
    `searchTerm.toLowerCase().trim()`: the lower-cased term with its leading
    and trailing whitespace removed, already in lower case, so lower-casing
    it again changes nothing.
   */
  function SearchKey(searchTerm: string): (key: string)
    ensures |key| <= |searchTerm|
    ensures exists i :: TrimmedAt(Lower(searchTerm), key, i)
    ensures |key| > 0 ==> !IsWhitespace(key[0]) && !IsWhitespace(key[|key| - 1])
    ensures Lower(key) == key
  {
    TrimKeepsLower(Lower(searchTerm));
    Trim(Lower(searchTerm))
  }

  /** The (already normalised) term occurs in the lower-cased title, description or address. */
  function MatchesTerm(term: string): Listing -> bool
  {
    (l: Listing) =>
      || Includes(Lower(OrEmpty(l.title)), term)
      || Includes(Lower(OrEmpty(l.description)), term)
      || Includes(Lower(OrEmpty(l.address)), term)
  }

  /** The search effect: a blank term shows every issue, otherwise only the matching ones. */
  function Search(issues: seq<Listing>, searchTerm: string): (r: seq<Listing>)
    ensures |r| <= |issues|
    ensures SearchKey(searchTerm) != "" ==>
      forall k :: 0 <= k < |issues| ==> (issues[k] in r <==> MatchesTerm(SearchKey(searchTerm))(issues[k]))
    ensures SearchKey(searchTerm) != "" ==>
      forall k :: 0 <= k < |r| ==> MatchesTerm(SearchKey(searchTerm))(r[k])
  {
    var term := SearchKey(searchTerm);
    if term == "" then issues else Filter(issues, MatchesTerm(term))
  }

  /** The normalised term is blank exactly when the typed term is whitespace only. */
  lemma SearchKeyBlank(searchTerm: string)
    ensures SearchKey(searchTerm) == "" <==> forall k :: 0 <= k < |searchTerm| ==> IsWhitespace(searchTerm[k])
  {
    var low := Lower(searchTerm);
    assert forall k :: 0 <= k < |searchTerm| ==> (IsWhitespace(low[k]) <==> IsWhitespace(searchTerm[k]));
  }

  /** An empty or whitespace-only term returns the list unchanged. */
  lemma SearchBlank(issues: seq<Listing>, searchTerm: string)
    requires forall k :: 0 <= k < |searchTerm| ==> IsWhitespace(searchTerm[k])
    ensures Search(issues, searchTerm) == issues
  {
    SearchKeyBlank(searchTerm);
  }

  /** Whatever the term, the result is an order-preserving subsequence of the list. */
  lemma SearchIsSubseq(issues: seq<Listing>, searchTerm: string)
    ensures IsSubseq(Search(issues, searchTerm), issues)
  {
    if SearchKey(searchTerm) != "" {
      FilterIsSubseq(issues, MatchesTerm(SearchKey(searchTerm)));
    } else {
      FilterAll(issues, (l: Listing) => true);
      FilterIsSubseq(issues, (l: Listing) => true);
    }
  }

  /** An issue with no title, description or address never matches a non-blank term. */
  lemma MissingFieldsNeverMatch(l: Listing, searchTerm: string)
    requires l.title.None? && l.description.None? && l.address.None?
    requires SearchKey(searchTerm) != ""
    ensures l !in Search([l], searchTerm)
  {
    IncludedInEmpty(SearchKey(searchTerm));
  }
}
