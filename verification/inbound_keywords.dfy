/** The inbound keyword-SMS store and its per-service queries
    (app/dao/inbound_sms_keyword_dao.py). Rows are kept in storage order; the
    clock-dependent `midnight_n_days_ago` is passed in as a function. */
module InboundKeywords {

  import opened Wrappers
  import opened Seqs

  type Uuid = string
  type Timestamp = int

  datatype InboundSmsKeyword = InboundSmsKeyword(
    id: Uuid,
    serviceId: Uuid,
    content: string,
    notifyShortNumber: string,
    userNumber: string,
    createdAt: Timestamp,
    providerDate: Option<Timestamp>,
    providerReference: Option<string>,
    provider: string)

  /** `midnight_n_days_ago(n)`: the instant from which the last n days are counted. */
  type MidnightDaysAgo = int -> Timestamp

  /** The `created_at DESC` ordering. */
  predicate NewerOrSame(a: InboundSmsKeyword, b: InboundSmsKeyword)
  {
    a.createdAt >= b.createdAt
  }

  lemma NewestFirstIsTotalOrder()
    ensures Total(NewerOrSame)
    ensures Transitive(NewerOrSame)
  {
  }

  /** Python truthiness of the optional `limit`: None and 0 mean no limit. */
  predicate HasLimit(limit: Option<nat>)
  {
    limit.Some? && limit.value != 0
  }

  /** The WHERE clause of dao_get_inbound_sms_keyword_for_service. */
  function QueryFilter(serviceId: Uuid, userNumber: Option<string>, since: Option<Timestamp>)
    : InboundSmsKeyword -> bool
  {
    (m: InboundSmsKeyword) =>
      && m.serviceId == serviceId
      && (since.Some? ==> m.createdAt >= since.value)
      && (Truthy(userNumber) ==> m.userNumber == userNumber.value)
  }

  function Since(limitDays: Option<int>, midnightDaysAgo: MidnightDaysAgo): Option<Timestamp>
  {
    if limitDays.Some? then Some(midnightDaysAgo(limitDays.value)) else None
  }

  /** The rows matching `p`, newest first: the ORDER BY over the WHERE. */
  function Ordered(rows: seq<InboundSmsKeyword>, p: InboundSmsKeyword -> bool): (r: seq<InboundSmsKeyword>)
    ensures multiset(r) == multiset(Filter(rows, p))
    ensures |r| == Count(rows, p)
    ensures forall m :: m in r ==> m in rows && p(m)
    ensures Sorted(r, NewerOrSame)
  {
    var matching := Filter(rows, p);
    NewestFirstIsTotalOrder();
    SortBySorted(matching, NewerOrSame);
    CountIsFilterLength(rows, p);
    var ordered := SortBy(matching, NewerOrSame);
    assert forall m :: m in ordered ==> m in matching by {
      forall m | m in ordered ensures m in matching {
        assert m in multiset(ordered);
      }
    }
    ordered
  }

  /** dao_get_inbound_sms_keyword_for_service: the service's rows, filtered by age and
      sender when asked, newest first, cut to `limit` when it is truthy. */
  function ForService(rows: seq<InboundSmsKeyword>, serviceId: Uuid, userNumber: Option<string>,
                      limitDays: Option<int>, limit: Option<nat>,
                      midnightDaysAgo: MidnightDaysAgo): (r: seq<InboundSmsKeyword>)
    ensures forall m :: m in r ==> m in rows && m.serviceId == serviceId
    ensures forall m :: m in r && limitDays.Some? ==> m.createdAt >= midnightDaysAgo(limitDays.value)
    ensures forall m :: m in r && Truthy(userNumber) ==> m.userNumber == userNumber.value
    ensures forall i :: 0 < i < |r| ==> r[i - 1].createdAt >= r[i].createdAt
    ensures !HasLimit(limit) ==>
      multiset(r) == multiset(Filter(rows, QueryFilter(serviceId, userNumber, Since(limitDays, midnightDaysAgo))))
    ensures HasLimit(limit) ==> |r| == Min(limit.value,
      Count(rows, QueryFilter(serviceId, userNumber, Since(limitDays, midnightDaysAgo))))
    ensures HasLimit(limit) ==>
      multiset(r) <= multiset(Filter(rows, QueryFilter(serviceId, userNumber, Since(limitDays, midnightDaysAgo))))
  {
    var ordered := Ordered(rows, QueryFilter(serviceId, userNumber, Since(limitDays, midnightDaysAgo)));
    if HasLimit(limit) then
      var r := ordered[..Min(limit.value, |ordered|)];
      PrefixWithin(ordered, |r|);
      r
    else ordered
  }

  /** A prefix takes its rows from the whole, each at most as often. */
  lemma PrefixWithin(s: seq<InboundSmsKeyword>, n: nat)
    requires n <= |s|
    ensures multiset(s[..n]) <= multiset(s)
    ensures forall m :: m in s[..n] ==> m in s
  {
    assert s == s[..n] + s[n..];
  }

  function Min(a: nat, b: nat): nat
  {
    if a < b then a else b
  }

  /** A truthy limit keeps the newest rows: everything it drops is no newer than
      anything it returns. */
  lemma LimitKeepsNewest(rows: seq<InboundSmsKeyword>, serviceId: Uuid, userNumber: Option<string>,
                         limitDays: Option<int>, limit: Option<nat>, midnightDaysAgo: MidnightDaysAgo,
                         m: InboundSmsKeyword, i: int)
    requires m in rows && QueryFilter(serviceId, userNumber, Since(limitDays, midnightDaysAgo))(m)
    requires m !in ForService(rows, serviceId, userNumber, limitDays, limit, midnightDaysAgo)
    requires 0 <= i < |ForService(rows, serviceId, userNumber, limitDays, limit, midnightDaysAgo)|
    ensures ForService(rows, serviceId, userNumber, limitDays, limit, midnightDaysAgo)[i].createdAt >= m.createdAt
  {
    var p := QueryFilter(serviceId, userNumber, Since(limitDays, midnightDaysAgo));
    var ordered := Ordered(rows, p);
    NewestFirstIsTotalOrder();
    var r := ForService(rows, serviceId, userNumber, limitDays, limit, midnightDaysAgo);
    assert r == ordered[..|r|];
    assert m in Filter(rows, p);
    assert m in multiset(ordered);
    var j :| 0 <= j < |ordered| && ordered[j] == m;
    SortedPairs(ordered, NewerOrSame, i, j);
  }

  /** The COUNT's WHERE clause. */
  function CountFilter(serviceId: Uuid, since: Timestamp): InboundSmsKeyword -> bool
  {
    (m: InboundSmsKeyword) => m.serviceId == serviceId && m.createdAt >= since
  }

  /** dao_count_inbound_sms_keyword_for_service. */
  function CountForService(rows: seq<InboundSmsKeyword>, serviceId: Uuid, limitDays: int,
                           midnightDaysAgo: MidnightDaysAgo): (n: nat)
    ensures n <= |rows|
    ensures n == 0 <==> forall m :: m in rows ==> !(m.serviceId == serviceId && m.createdAt >= midnightDaysAgo(limitDays))
  {
    CountBound(rows, CountFilter(serviceId, midnightDaysAgo(limitDays)));
    CountZeroIff(rows, serviceId, midnightDaysAgo(limitDays));
    Count(rows, CountFilter(serviceId, midnightDaysAgo(limitDays)))
  }

  lemma CountZeroIff(rows: seq<InboundSmsKeyword>, serviceId: Uuid, since: Timestamp)
    ensures Count(rows, CountFilter(serviceId, since)) == 0 <==>
      forall m :: m in rows ==> !(m.serviceId == serviceId && m.createdAt >= since)
  {
    var q := CountFilter(serviceId, since);
    CountIsFilterLength(rows, q);
    if |Filter(rows, q)| > 0 {
      assert Filter(rows, q)[0] in Filter(rows, q);
    }
  }

  /** The count is the length of the unlimited query over the same window. */
  lemma CountMatchesQuery(rows: seq<InboundSmsKeyword>, serviceId: Uuid, limitDays: int,
                          midnightDaysAgo: MidnightDaysAgo)
    ensures CountForService(rows, serviceId, limitDays, midnightDaysAgo) ==
      |ForService(rows, serviceId, None, Some(limitDays), None, midnightDaysAgo)|
  {
    var p := QueryFilter(serviceId, None, Since(Some(limitDays), midnightDaysAgo));
    var q := CountFilter(serviceId, midnightDaysAgo(limitDays));
    FilterFilter(rows, p, p, q);
    FilterFilter(rows, q, q, q);
    FilterFilter(rows, p, q, q);
    assert Filter(rows, p) == Filter(rows, q) by {
      FilterSame(rows, p, q);
    }
    CountIsFilterLength(rows, q);
  }

  lemma {:induction false} FilterSame<T(!new)>(s: seq<T>, p: T -> bool, q: T -> bool)
    requires forall x :: p(x) == q(x)
    ensures Filter(s, p) == Filter(s, q)
  {
    if |s| > 0 {
      FilterSame(s[1..], p, q);
    }
  }

  /** Rows of other services never change a service's count. */
  lemma {:induction false} OtherServicesDoNotCount(rows: seq<InboundSmsKeyword>, others: seq<InboundSmsKeyword>,
                                 serviceId: Uuid, limitDays: int, midnightDaysAgo: MidnightDaysAgo)
    requires forall m :: m in others ==> m.serviceId != serviceId
    ensures CountForService(rows + others, serviceId, limitDays, midnightDaysAgo) ==
      CountForService(rows, serviceId, limitDays, midnightDaysAgo)
  {
    var q := CountFilter(serviceId, midnightDaysAgo(limitDays));
    FilterAppend(rows, others, q);
    CountIsFilterLength(rows + others, q);
    CountIsFilterLength(rows, q);
    CountIsFilterLength(others, q);
    CountNone(others, q);
  }

  datatype LookupError = NoResultFound | MultipleResultsFound

  predicate IsRow(m: InboundSmsKeyword, serviceId: Uuid, id: Uuid)
  {
    m.id == id && m.serviceId == serviceId
  }

  /** dao_get_inbound_sms_keyword_by_id: `.one()` over rows matching both id and service. */
  function ById(rows: seq<InboundSmsKeyword>, serviceId: Uuid, id: Uuid): (r: Result<InboundSmsKeyword, LookupError>)
    ensures r.Ok? ==> r.value in rows && r.value.id == id && r.value.serviceId == serviceId
    ensures r == Err(NoResultFound) <==> forall m :: m in rows ==> !IsRow(m, serviceId, id)
    ensures r.Ok? ==> forall k :: 0 <= k < |rows| && IsRow(rows[k], serviceId, id) ==> rows[k] == r.value
    ensures r == Err(MultipleResultsFound) <==>
      exists i, j :: 0 <= i < j < |rows| && IsRow(rows[i], serviceId, id) && IsRow(rows[j], serviceId, id)
  {
    var matching := Filter(rows, (m: InboundSmsKeyword) => IsRow(m, serviceId, id));
    if |matching| == 0 then
      Err(NoResultFound)
    else if |matching| == 1 then
      AtMostOneMatch(rows, serviceId, id);
      Ok(matching[0])
    else
      TwoMatches(rows, serviceId, id);
      Err(MultipleResultsFound)
  }

  lemma {:induction false} TwoMatches(rows: seq<InboundSmsKeyword>, serviceId: Uuid, id: Uuid)
    requires |Filter(rows, (m: InboundSmsKeyword) => IsRow(m, serviceId, id))| >= 2
    ensures exists i, j :: 0 <= i < j < |rows| && IsRow(rows[i], serviceId, id) && IsRow(rows[j], serviceId, id)
  {
    var p := (m: InboundSmsKeyword) => IsRow(m, serviceId, id);
    if p(rows[0]) {
      assert |Filter(rows[1..], p)| >= 1;
      var m := Filter(rows[1..], p)[0];
      assert m in rows[1..];
      var k :| 0 <= k < |rows[1..]| && rows[1..][k] == m;
      assert IsRow(rows[k + 1], serviceId, id);
    } else {
      TwoMatches(rows[1..], serviceId, id);
      var i, j :| 0 <= i < j < |rows[1..]| && IsRow(rows[1..][i], serviceId, id) && IsRow(rows[1..][j], serviceId, id);
      assert IsRow(rows[i + 1], serviceId, id) && IsRow(rows[j + 1], serviceId, id);
    }
  }

  /** When at most one row is selected, no two positions hold matching rows. */
  lemma AtMostOneMatch(rows: seq<InboundSmsKeyword>, serviceId: Uuid, id: Uuid)
    requires |Filter(rows, (m: InboundSmsKeyword) => IsRow(m, serviceId, id))| <= 1
    ensures forall i, j :: 0 <= i < j < |rows| ==> !(IsRow(rows[i], serviceId, id) && IsRow(rows[j], serviceId, id))
  {
    forall i, j | 0 <= i < j < |rows|
      ensures !(IsRow(rows[i], serviceId, id) && IsRow(rows[j], serviceId, id))
    {
      NoSecondMatch(rows, serviceId, id, i, j);
    }
  }

  lemma {:induction false} NoSecondMatch(rows: seq<InboundSmsKeyword>, serviceId: Uuid, id: Uuid, i: int, j: int)
    requires |Filter(rows, (m: InboundSmsKeyword) => IsRow(m, serviceId, id))| <= 1
    requires 0 <= i < j < |rows|
    ensures !(IsRow(rows[i], serviceId, id) && IsRow(rows[j], serviceId, id))
  {
    var p := (m: InboundSmsKeyword) => IsRow(m, serviceId, id);
    assert rows[1..][j - 1] == rows[j];
    if i == 0 {
      if p(rows[0]) {
        assert |Filter(rows[1..], p)| == 0;
        assert rows[j] in rows[1..];
      }
    } else {
      assert |Filter(rows[1..], p)| <= |Filter(rows, p)|;
      NoSecondMatch(rows[1..], serviceId, id, i - 1, j - 1);
      assert rows[1..][i - 1] == rows[i];
    }
  }
}
