/**
  The in-memory issue endpoint (app/api/issues/route.ts). The module-level
  `mockIssues` array is modelled as a sequence that each call receives and,
  for `POST`, returns updated. `GET` narrows the list by optional equality
  filters on `citizenId`, `status` and `category`; `POST` appends the request
  body as a new issue whose status is always `"pending"`.
 */
module IssuesApi {
  import opened Types
  import opened Text
  import opened Seqs

  /** The query string: each parameter may be absent. */
  datatype Query = Query(citizenId: Option<string>, status: Option<string>, category: Option<string>)

  function CitizenIs(id: string): Issue -> bool
  {
    (i: Issue) => i.citizenId == id
  }

  /** The value of a present parameter; only read when the parameter is truthy. */
  function Param(o: Option<string>): string
  {
    if o.Some? then o.value else ""
  }

  /** An issue passes every filter whose parameter is present and non-empty. */
  predicate Matches(q: Query, i: Issue)
  {
    && (Truthy(q.citizenId) ==> i.citizenId == q.citizenId.value)
    && (Truthy(q.status) ==> StatusName(i.status) == q.status.value)
    && (Truthy(q.category) ==> CategoryName(i.category) == q.category.value)
  }

  function MatchesQuery(q: Query): Issue -> bool
  {
    (i: Issue) => Matches(q, i)
  }

  /** The `GET` handler: the three filters applied one after another. */
  function Get(store: seq<Issue>, q: Query): (r: seq<Issue>)
    ensures |r| <= |store|
    ensures !Truthy(q.citizenId) && !Truthy(q.status) && !Truthy(q.category) ==> r == store
  {
    var byCitizen := if Truthy(q.citizenId) then Filter(store, CitizenIs(Param(q.citizenId))) else store;
    var byStatus := if Truthy(q.status) then Filter(byCitizen, StatusIs(Param(q.status))) else byCitizen;
    if Truthy(q.category) then Filter(byStatus, CategoryIs(Param(q.category))) else byStatus
  }

  /**
    `GET` returns exactly the stored issues that satisfy every supplied
    filter, in stored order.
   */
  lemma GetIsConjunction(store: seq<Issue>, q: Query)
    ensures Get(store, q) == Filter(store, MatchesQuery(q))
  {
    var c := When(Truthy(q.citizenId), CitizenIs(Param(q.citizenId)));
    var s := When(Truthy(q.status), StatusIs(Param(q.status)));
    var g := When(Truthy(q.category), CategoryIs(Param(q.category)));
    var all := MatchesQuery(q);
    FilterWhen(store, Truthy(q.citizenId), CitizenIs(Param(q.citizenId)));
    var byCitizen := Filter(store, c);
    FilterWhen(byCitizen, Truthy(q.status), StatusIs(Param(q.status)));
    var byStatus := Filter(byCitizen, s);
    FilterWhen(byStatus, Truthy(q.category), CategoryIs(Param(q.category)));
    assert Get(store, q) == Filter(byStatus, g);
    FilterFilter(store, c, s);
    FilterFilter(store, And(c, s), g);
    forall i | i in store
      ensures And(And(c, s), g)(i) == all(i)
    {
      assert And(And(c, s), g)(i) == (c(i) && s(i) && g(i));
    }
    FilterExt(store, And(And(c, s), g), all);
  }

  /**
    Every returned issue carries each supplied value, every stored issue
    that carries them all is returned, and the result is an order-preserving
    subsequence of the store.
   */
  lemma GetSound(store: seq<Issue>, q: Query)
    ensures forall i :: 0 <= i < |Get(store, q)| ==> Matches(q, Get(store, q)[i])
    ensures forall i :: 0 <= i < |store| && Matches(q, store[i]) ==> store[i] in Get(store, q)
    ensures IsSubseq(Get(store, q), store)
  {
    GetIsConjunction(store, q);
    FilterIsSubseq(store, MatchesQuery(q));
  }

  /** Applying the filters in the reverse order gives the same list. */
  lemma GetOrderIrrelevant(store: seq<Issue>, q: Query)
    ensures
      var g := When(Truthy(q.category), CategoryIs(Param(q.category)));
      var s := When(Truthy(q.status), StatusIs(Param(q.status)));
      var c := When(Truthy(q.citizenId), CitizenIs(Param(q.citizenId)));
      Filter(Filter(Filter(store, g), s), c) == Get(store, q)
  {
    var g := When(Truthy(q.category), CategoryIs(Param(q.category)));
    var s := When(Truthy(q.status), StatusIs(Param(q.status)));
    var c := When(Truthy(q.citizenId), CitizenIs(Param(q.citizenId)));
    var all := MatchesQuery(q);
    GetIsConjunction(store, q);
    FilterFilter(store, g, s);
    FilterFilter(store, And(g, s), c);
    forall i | i in store
      ensures And(And(g, s), c)(i) == all(i)
    {
      assert And(And(g, s), c)(i) == (g(i) && s(i) && c(i));
    }
    FilterExt(store, And(And(g, s), c), all);
  }

  /**
    The parsed request body. Any `id` it carries overrides the default id;
    any `status` it carries is overwritten.
   */
  datatype IssueBody = IssueBody(
    id: Option<string>,
    title: string,
    description: string,
    category: Category,
    priority: Priority,
    location: Location,
    images: Option<seq<string>>,
    citizenId: string,
    assignedTo: Option<string>,
    resolvedAt: Option<Timestamp>,
    status: Option<string>
  )

  datatype PostResponse = Created(issue: Issue) | Failed(code: int, error: string)

  /** `String(mockIssues.length + 1)`. */
  function DefaultId(store: seq<Issue>): string
  {
    NatToString(|store| + 1)
  }

  /** The issue's fields other than id, status and the two timestamps come from the body. */
  predicate CarriesBody(i: Issue, b: IssueBody)
  {
    && i.title == b.title && i.description == b.description
    && i.category == b.category && i.priority == b.priority
    && i.location == b.location && i.images == b.images
    && i.citizenId == b.citizenId && i.assignedTo == b.assignedTo
    && i.resolvedAt == b.resolvedAt
  }

  /**
    The `POST` handler. `created` and `updated` are the two `new Date()`
    readings; `body` is `None` when the request body does not parse.
   */
  function Post(store: seq<Issue>, body: Option<IssueBody>, created: Timestamp, updated: Timestamp)
    : (r: (seq<Issue>, PostResponse))
    ensures body.None? ==> r == (store, Failed(500, "Failed to create issue"))
    ensures body.Some? ==> r.1.Created? && r.0 == store + [r.1.issue]
    ensures body.Some? ==> r.1.issue.status == Pending
    ensures body.Some? ==> r.1.issue.id == (if body.value.id.Some? then body.value.id.value else DefaultId(store))
    ensures body.Some? ==> CarriesBody(r.1.issue, body.value)
    ensures body.Some? ==> r.1.issue.createdAt == created && r.1.issue.updatedAt == updated
  {
    match body
    case None => (store, Failed(500, "Failed to create issue"))
    case Some(b) =>
      var issue := Issue(
        if b.id.Some? then b.id.value else DefaultId(store),
        b.title, b.description, b.category, b.priority, Pending, b.location,
        b.images, b.citizenId, b.assignedTo, created, updated, b.resolvedAt);
      (store + [issue], Created(issue))
  }

  /** A created issue shows up at the end of every later `GET` whose filters it passes. */
  lemma PostThenGet(store: seq<Issue>, b: IssueBody, created: Timestamp, updated: Timestamp, q: Query)
    ensures var r := Post(store, Some(b), created, updated);
      Get(r.0, q) == Get(store, q) + (if Matches(q, r.1.issue) then [r.1.issue] else [])
  {
    var r := Post(store, Some(b), created, updated);
    GetIsConjunction(store, q);
    GetIsConjunction(r.0, q);
    FilterAppend(store, [r.1.issue], MatchesQuery(q));
  }

  /** Every stored issue has the id `POST` would have given it by default. */
  predicate DefaultIds(store: seq<Issue>)
  {
    forall k :: 0 <= k < |store| ==> store[k].id == NatToString(k + 1)
  }

  predicate IdsUnique(store: seq<Issue>)
  {
    forall j, k :: 0 <= j < k < |store| ==> store[j].id != store[k].id
  }

  /** Default ids are pairwise distinct. */
  lemma DefaultIdsUnique(store: seq<Issue>)
    requires DefaultIds(store)
    ensures IdsUnique(store)
  {
    forall j, k | 0 <= j < k < |store|
      ensures store[j].id != store[k].id
    {
      NatToStringInjective(j + 1, k + 1);
    }
  }

  /** Creating an issue from a body without an id keeps every id the default one. */
  lemma PostKeepsDefaultIds(store: seq<Issue>, b: IssueBody, created: Timestamp, updated: Timestamp)
    requires DefaultIds(store) && b.id.None?
    ensures DefaultIds(Post(store, Some(b), created, updated).0)
  {
  }

  /**
    A body-supplied id is not checked against the list: a client id `"2"`
    on an empty list followed by a body without id stores two issues with
    id `"2"`.
   */
  lemma ClientIdCollides(b1: IssueBody, b2: IssueBody, t: Timestamp)
    requires b1.id == Some("2") && b2.id.None?
    ensures var first := Post([], Some(b1), t, t).0;
      var second := Post(first, Some(b2), t, t).0;
      |second| == 2 && !IdsUnique(second)
  {
    assert DigitChar(2) == '2';
    var first := Post([], Some(b1), t, t).0;
    var second := Post(first, Some(b2), t, t).0;
    assert second[0].id == second[1].id;
  }
}
