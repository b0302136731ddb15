/**
 * The backend wrappers of lib/appwrite.ts: the query clauses they send, and how they
 * shape the backend's answer (a value, or a thrown failure) into what the screens see.
 */
module Appwrite {
  import opened Wrappers

  /** The backend's answer to one SDK call: a value, or a thrown failure. */
  datatype Response<T> = Ok(value: T) | Thrown

  /** The SDK's query clauses, as values. */
  datatype Clause =
    | OrderAsc(attribute: string)
    | OrderDesc(attribute: string)
    | Equal(attribute: string, value: string)
    | Search(attribute: string, value: string)
    | Or(clauses: seq<Clause>)
    | Limit(count: int)

  /** The account record the backend returns for the signed-in user. */
  datatype Account = Account(
    id: string,
    name: string,
    email: string,
    avatar: string,
    otherFields: map<string, string>)

  const CreatedAt: string := "$createdAt"

  /** The clause list `getLatestProperties` sends. */
  const LatestPropertiesQuery: seq<Clause> := [OrderAsc(CreatedAt), Limit(5)]

  /** The documents of a listing, or `[]` when the call threw. */
  function Documents<D>(r: Response<seq<D>>): (docs: seq<D>)
    ensures r.Thrown? ==> docs == []
    ensures r.Ok? ==> docs == r.value
  {
    match r
    case Ok(v) => v
    case Thrown => []
  }

  /**
   * `getLatestProperties`: lists with exactly the clauses "ascending by creation time,
   * at most five"; a failure gives `[]`.
   */
  function GetLatestProperties<D>(listDocuments: seq<Clause> -> Response<seq<D>>): (docs: seq<D>)
    ensures |LatestPropertiesQuery| == 2 && LatestPropertiesQuery[0] == OrderAsc(CreatedAt)
    ensures LatestPropertiesQuery[1] == Limit(5)
    ensures listDocuments(LatestPropertiesQuery).Thrown? ==> docs == []
    ensures listDocuments(LatestPropertiesQuery).Ok? ==> docs == listDocuments(LatestPropertiesQuery).value
  {
    Documents(listDocuments(LatestPropertiesQuery))
  }

  /** JavaScript truthiness of `filter && filter !== "All"`. */
  predicate FilterApplies(filter: string) {
    filter != "" && filter != "All"
  }

  /** JavaScript truthiness of the optional number `limit`: `undefined` and `0` are falsy. */
  predicate LimitApplies(limit: Option<int>) {
    limit.Some? && limit.value != 0
  }

  /** The one search clause: the same text searched in name, address and type. */
  function SearchClause(query: string): Clause {
    Or([Search("name", query), Search("address", query), Search("type", query)])
  }

  /** Where each kind of clause sits in the list `getProperties` builds. */
  function Rank(c: Clause): nat {
    match c
    case OrderDesc(_) => 0
    case Equal(_, _) => 1
    case Or(_) => 2
    case Limit(_) => 3
    case _ => 4
  }

  function Count(b: bool): nat {
    if b then 1 else 0
  }

  /**
   * What the clause list of `getProperties(filter, query, limit)` is: it starts with
   * "descending by creation time"; holds the type filter exactly when the filter applies,
   * the search clause exactly when the query is non-empty, and the limit exactly when the
   * limit is truthy; holds nothing else; and keeps the order order, filter, search, limit.
   */
  ghost predicate IsPropertyQuery(q: seq<Clause>, filter: string, query: string, limit: Option<int>) {
    && |q| == 1 + Count(FilterApplies(filter)) + Count(query != "") + Count(LimitApplies(limit))
    && q[0] == OrderDesc(CreatedAt)
    && (Equal("type", filter) in q <==> FilterApplies(filter))
    && (SearchClause(query) in q <==> query != "")
    && (LimitApplies(limit) ==> Limit(limit.value) in q)
    && (forall c :: c in q ==>
          || c == OrderDesc(CreatedAt)
          || (c == Equal("type", filter) && FilterApplies(filter))
          || (c == SearchClause(query) && query != "")
          || (LimitApplies(limit) && c == Limit(limit.value)))
    && RankSorted(q)
  }

  ghost predicate RankSorted(q: seq<Clause>) {
    forall i, j :: 0 <= i < j < |q| ==> Rank(q[i]) < Rank(q[j])
  }

  /** Two rank-sorted clause lists with the same clauses are the same list. */
  lemma {:induction false} RankSortedUnique(q1: seq<Clause>, q2: seq<Clause>)
    requires RankSorted(q1) && RankSorted(q2)
    requires forall c :: c in q1 <==> c in q2
    ensures q1 == q2
    decreases |q1|
  {
    if q1 != [] {
      assert q1[0] in q2;
    }
    if q2 != [] {
      assert q2[0] in q1;
    }
    if q1 != [] {
      var j :| 0 <= j < |q2| && q2[j] == q1[0];
      var i :| 0 <= i < |q1| && q1[i] == q2[0];
      assert j == 0;
      assert q1 == [q1[0]] + q1[1..] && q2 == [q2[0]] + q2[1..];
      forall c
        ensures c in q1[1..] <==> c in q2[1..]
      {
        if c in q1[1..] {
          var k :| 0 <= k < |q1[1..]| && q1[1..][k] == c;
          assert q1[k + 1] == c && Rank(q1[0]) < Rank(c);
          assert c in q2 && c != q2[0];
        }
        if c in q2[1..] {
          var k :| 0 <= k < |q2[1..]| && q2[1..][k] == c;
          assert q2[k + 1] == c && Rank(q2[0]) < Rank(c);
          assert c in q1 && c != q1[0];
        }
      }
      RankSortedUnique(q1[1..], q2[1..]);
    }
  }

  /** The description of `getProperties`'s clause list fits exactly one list. */
  lemma PropertyQueryUnique(q1: seq<Clause>, q2: seq<Clause>, filter: string, query: string, limit: Option<int>)
    requires IsPropertyQuery(q1, filter, query, limit) && IsPropertyQuery(q2, filter, query, limit)
    ensures q1 == q2
  {
    RankSortedUnique(q1, q2);
  }

  /** The conditional pushes that build the clause list of `getProperties`. */
  method BuildPropertyQuery(filter: string, query: string, limit: Option<int>) returns (q: seq<Clause>)
    ensures IsPropertyQuery(q, filter, query, limit)
  {
    q := [OrderDesc(CreatedAt)];
    if FilterApplies(filter) {
      q := q + [Equal("type", filter)];
    }
    if query != "" {
      q := q + [SearchClause(query)];
    }
    if LimitApplies(limit) {
      q := q + [Limit(limit.value)];
    }
  }

  /**
   * `getProperties`: lists with the clause list built above (`sent`); a failure gives `[]`.
   */
  method GetProperties<D>(filter: string, query: string, limit: Option<int>,
                          listDocuments: seq<Clause> -> Response<seq<D>>)
    returns (docs: seq<D>, ghost sent: seq<Clause>)
    ensures IsPropertyQuery(sent, filter, query, limit)
    ensures listDocuments(sent).Thrown? ==> docs == []
    ensures listDocuments(sent).Ok? ==> docs == listDocuments(sent).value
  {
    var q := BuildPropertyQuery(filter, query, limit);
    sent := q;
    docs := Documents(listDocuments(q));
  }

  /** `getPropertyById`: the document, or `null` (here `None`) when the call threw. */
  function GetPropertyById<D>(id: string, getDocument: string -> Response<D>): (r: Option<D>)
    ensures r.None? <==> getDocument(id).Thrown?
    ensures r.Some? ==> r.value == getDocument(id).value
  {
    match getDocument(id)
    case Ok(d) => Some(d)
    case Thrown => None
  }

  /**
   * `getCurrentUser`: with a truthy `$id`, the account with its avatar replaced by the
   * initials avatar of its name and every other field kept; with an empty `$id` the
   * function falls off its end (`undefined`); when the call throws, `null`.
   */
  function GetCurrentUser(response: Response<Account>, initialsAvatar: string -> string)
    : (r: JsNullable<Account>)
    ensures response.Thrown? <==> r.Null?
    ensures r.Undefined? <==> response.Ok? && response.value.id == ""
    ensures r.Value? ==> response.Ok?
    ensures r.Value? ==>
      && r.value.id == response.value.id
      && r.value.name == response.value.name
      && r.value.email == response.value.email
      && r.value.otherFields == response.value.otherFields
      && r.value.avatar == initialsAvatar(response.value.name)
  {
    match response
    case Thrown => Null
    case Ok(account) =>
      if account.id != "" then Value(account.(avatar := initialsAvatar(account.name)))
      else Undefined
  }
}
