/** The retention sweep over inbound keyword SMS
    (app/dao/inbound_sms_keyword_dao.py): a batched delete of rows older than a
    cutoff, run once per service with its own sms retention policy and once for
    every other service with the seven-day default. */
module RetentionSweep {

  import opened Wrappers
  import opened Seqs
  import opened InboundKeywords

  /** Rows removed by one DELETE statement at most. */
  const QueryLimit: nat := 10000

  /** Retention for services without their own sms policy. */
  const DefaultRetentionDays := 7

  const SmsType := "sms"

  /** The extra WHERE terms the sweep passes to the batched delete. */
  datatype Scope =
    | OnlyService(serviceId: Uuid)           // service_id == f.service_id
    | ExceptServices(serviceIds: set<Uuid>)  // service_id NOT IN (...)

  predicate InScope(m: InboundSmsKeyword, scope: Scope)
  {
    match scope
    case OnlyService(s) => m.serviceId == s
    case ExceptServices(ss) => m.serviceId !in ss
  }

  /** Rows the delete targets: strictly older than the cutoff and in scope. */
  function Doomed(cutoff: Timestamp, scope: Scope): InboundSmsKeyword -> bool
  {
    (m: InboundSmsKeyword) => m.createdAt < cutoff && InScope(m, scope)
  }

  function Spared(cutoff: Timestamp, scope: Scope): InboundSmsKeyword -> bool
  {
    (m: InboundSmsKeyword) => !(m.createdAt < cutoff && InScope(m, scope))
  }

  datatype Batch = Batch(remaining: seq<InboundSmsKeyword>, deleted: nat)

  /** One `DELETE ... WHERE id IN (SELECT id ... WHERE created_at < cutoff AND scope
      LIMIT limit)`: the first `limit` targeted rows go, everything else stays in place. */
  function DeleteBatch(rows: seq<InboundSmsKeyword>, cutoff: Timestamp, scope: Scope, limit: nat): (b: Batch)
    ensures b.deleted == Min(limit, Count(rows, Doomed(cutoff, scope)))
    ensures b.deleted + |b.remaining| == |rows|
    ensures Count(b.remaining, Doomed(cutoff, scope)) + b.deleted == Count(rows, Doomed(cutoff, scope))
    ensures Filter(b.remaining, Spared(cutoff, scope)) == Filter(rows, Spared(cutoff, scope))
  {
    if |rows| == 0 || limit == 0 then Batch(rows, 0)
    else if Doomed(cutoff, scope)(rows[0]) then
      var b := DeleteBatch(rows[1..], cutoff, scope, limit - 1);
      Batch(b.remaining, b.deleted + 1)
    else
      var b := DeleteBatch(rows[1..], cutoff, scope, limit);
      assert ([rows[0]] + b.remaining)[1..] == b.remaining;
      Batch([rows[0]] + b.remaining, b.deleted)
  }

  /** _delete_inbound_sms_keyword: repeat the batch until one deletes nothing; return
      the survivors, the total deleted and the size of every batch. */
  method DeleteOlderThan(rows: seq<InboundSmsKeyword>, cutoff: Timestamp, scope: Scope)
    returns (remaining: seq<InboundSmsKeyword>, deleted: nat, batches: seq<nat>)
    ensures remaining == Filter(rows, Spared(cutoff, scope))
    ensures forall m :: m in remaining <==> m in rows && (m.createdAt >= cutoff || !InScope(m, scope))
    ensures deleted == |rows| - |remaining| == Count(rows, Doomed(cutoff, scope))
    ensures deleted == Sum(batches)
    ensures forall i :: 0 <= i < |batches| ==> batches[i] <= QueryLimit
    ensures |batches| > 0 && batches[|batches| - 1] == 0
    ensures forall i :: 0 <= i < |batches| - 1 ==> batches[i] > 0
  {
    remaining := rows;
    deleted := 0;
    batches := [];
    var numberDeleted: nat := 1;  // nonzero to enter the loop
    while numberDeleted > 0
      invariant Filter(remaining, Spared(cutoff, scope)) == Filter(rows, Spared(cutoff, scope))
      invariant deleted + |remaining| == |rows|
      invariant deleted + Count(remaining, Doomed(cutoff, scope)) == Count(rows, Doomed(cutoff, scope))
      invariant deleted == Sum(batches)
      invariant forall i :: 0 <= i < |batches| ==> batches[i] <= QueryLimit
      invariant forall i :: 0 <= i < |batches| - 1 ==> batches[i] > 0
      invariant numberDeleted > 0 ==> |batches| == 0 || batches[|batches| - 1] > 0
      invariant numberDeleted == 0 ==>
        Count(remaining, Doomed(cutoff, scope)) == 0 && |batches| > 0 && batches[|batches| - 1] == 0
      decreases |remaining|, numberDeleted
    {
      var b := DeleteBatch(remaining, cutoff, scope, QueryLimit);
      numberDeleted := b.deleted;
      remaining := b.remaining;
      deleted := deleted + numberDeleted;
      var previous := batches;
      batches := batches + [numberDeleted];
      assert batches[..|batches| - 1] == previous;
    }
    CountSplit(remaining, Doomed(cutoff, scope), Spared(cutoff, scope));
    if Count(remaining, Spared(cutoff, scope)) == |remaining| {
      FilterAll(remaining, Spared(cutoff, scope));
    }
  }

  datatype ServiceDataRetention = ServiceDataRetention(
    serviceId: Uuid,
    notificationType: string,
    daysOfRetention: int)

  /** The flexible-retention query: sms policies, joined through the service to its
      inbound number, so only services that have one keep their own policy. */
  function FlexiblePolicy(withInboundNumber: set<Uuid>): ServiceDataRetention -> bool
  {
    (p: ServiceDataRetention) => p.notificationType == SmsType && p.serviceId in withInboundNumber
  }

  function FlexibleRetention(retentions: seq<ServiceDataRetention>, withInboundNumber: set<Uuid>)
    : (r: seq<ServiceDataRetention>)
    ensures forall p :: p in r <==>
      p in retentions && p.notificationType == SmsType && p.serviceId in withInboundNumber
  {
    Filter(retentions, FlexiblePolicy(withInboundNumber))
  }

  function PolicyServices(policies: seq<ServiceDataRetention>): set<Uuid>
  {
    set p | p in policies :: p.serviceId
  }

  /** A row none of `policies` removes: it is at or after each own-service cutoff. */
  function KeptBy(policies: seq<ServiceDataRetention>, midnightDaysAgo: MidnightDaysAgo)
    : InboundSmsKeyword -> bool
  {
    (m: InboundSmsKeyword) =>
      forall j :: 0 <= j < |policies| && policies[j].serviceId == m.serviceId ==>
        m.createdAt >= midnightDaysAgo(policies[j].daysOfRetention)
  }

  /** A row the whole sweep keeps: its own policies keep it, and when its service has
      none it is no older than the default cutoff. */
  function Survives(policies: seq<ServiceDataRetention>, midnightDaysAgo: MidnightDaysAgo)
    : InboundSmsKeyword -> bool
  {
    (m: InboundSmsKeyword) =>
      KeptBy(policies, midnightDaysAgo)(m) &&
      (m.serviceId in PolicyServices(policies) || m.createdAt >= midnightDaysAgo(DefaultRetentionDays))
  }

  lemma KeptByStep(policies: seq<ServiceDataRetention>, i: int, midnightDaysAgo: MidnightDaysAgo)
    requires 0 <= i < |policies|
    ensures forall m :: (KeptBy(policies[..i + 1], midnightDaysAgo)(m) ==
      (KeptBy(policies[..i], midnightDaysAgo)(m) &&
       Spared(midnightDaysAgo(policies[i].daysOfRetention), OnlyService(policies[i].serviceId))(m)))
  {
    var a := policies[..i + 1];
    var b := policies[..i];
    assert forall j :: 0 <= j < i ==> a[j] == b[j];
    assert a[i] == policies[i];
  }

  datatype SweepError =
    | NameError(name: string)   // the called helper is not bound in the module
    | TypeError(name: string)   // a bound name that does not take these arguments

  datatype Swept = Swept(remaining: seq<InboundSmsKeyword>, deleted: nat)

  /** Names bound at module level in the DAO module: its imports and its definitions. */
  const ModuleNamespace: set<string> := {
    "current_app", "statsd", "desc", "and_", "aliased", "db", "transactional",
    "InboundSmsKeyword", "Service", "ServiceDataRetention", "SMS_TYPE", "midnight_n_days_ago",
    "dao_create_inbound_sms_keyword", "dao_get_inbound_sms_keyword_for_service",
    "dao_count_inbound_sms_keyword_for_service", "_delete_inbound_sms_keyword",
    "delete_inbound_sms_keyword_older_than_retention", "dao_get_inbound_sms_keyword_by_id"}

  /** The batched-delete helper the module defines. */
  const DeleteHelper := "_delete_inbound_sms_keyword"

  /** The name the sweep actually calls. */
  const CalledHelper := "_delete_inbound_sms"

  /** Python's lookup of a global name at call time. */
  function ResolveHelper(name: string): (r: Result<(), SweepError>)
    ensures r.Ok? <==> name == DeleteHelper
  {
    if name == DeleteHelper then Ok(())
    else if name in ModuleNamespace then Err(TypeError(name))
    else Err(NameError(name))
  }

  /** delete_inbound_sms_keyword_older_than_retention, calling the batched delete by
      `helper`. Each flexible policy deletes its own service's rows older than its
      cutoff; then every other service loses rows older than the default cutoff. A
      raise rolls the transaction back, so nothing is deleted. */
  method SweepCalling(helper: string, rows: seq<InboundSmsKeyword>, retentions: seq<ServiceDataRetention>,
                      withInboundNumber: set<Uuid>, midnightDaysAgo: MidnightDaysAgo)
    returns (r: Result<Swept, SweepError>)
    ensures helper != DeleteHelper ==> r.Err? && r.error == ResolveHelper(helper).error
    ensures helper == DeleteHelper ==> r.Ok?
    ensures r.Ok? ==>
      r.value.remaining == Filter(rows, Survives(FlexibleRetention(retentions, withInboundNumber), midnightDaysAgo))
    ensures r.Ok? ==> r.value.deleted == |rows| - |r.value.remaining|
  {
    var flexible := FlexibleRetention(retentions, withInboundNumber);
    var remaining := rows;
    var deleted: nat := 0;
    FilterKeepsAll(rows, KeptBy(flexible[..0], midnightDaysAgo));
    for i := 0 to |flexible|
      invariant remaining == Filter(rows, KeptBy(flexible[..i], midnightDaysAgo))
      invariant deleted + |remaining| == |rows|
    {
      var resolved := ResolveHelper(helper);
      if resolved.Err? {
        return Err(resolved.error);
      }
      var rest, n := DeleteForPolicy(rows, remaining, flexible, i, midnightDaysAgo);
      remaining := rest;
      deleted := deleted + n;
    }
    var resolved := ResolveHelper(helper);
    if resolved.Err? {
      return Err(resolved.error);
    }
    assert flexible[..|flexible|] == flexible;
    var rest, n := DeleteForOthers(rows, remaining, flexible, midnightDaysAgo);
    return Ok(Swept(rest, deleted + n));
  }

  /** One pass of the sweep's loop: the batched delete for policy `i`, scoped to its
      service and cut at its own retention. It narrows the rows kept by the first `i`
      policies to those kept by the first `i + 1`. */
  method DeleteForPolicy(rows: seq<InboundSmsKeyword>, remaining: seq<InboundSmsKeyword>,
                         flexible: seq<ServiceDataRetention>, i: int, midnightDaysAgo: MidnightDaysAgo)
    returns (rest: seq<InboundSmsKeyword>, n: nat)
    requires 0 <= i < |flexible|
    ensures n + |rest| == |remaining|
    ensures remaining == Filter(rows, KeptBy(flexible[..i], midnightDaysAgo)) ==>
      rest == Filter(rows, KeptBy(flexible[..i + 1], midnightDaysAgo))
  {
    var f := flexible[i];
    var cutoff := midnightDaysAgo(f.daysOfRetention);
    var batches;
    rest, n, batches := DeleteOlderThan(remaining, cutoff, OnlyService(f.serviceId));
    KeptByStep(flexible, i, midnightDaysAgo);
    FilterFilter(rows, KeptBy(flexible[..i], midnightDaysAgo), Spared(cutoff, OnlyService(f.serviceId)),
                 KeptBy(flexible[..i + 1], midnightDaysAgo));
  }

  /** The sweep's last pass: the seven-day delete over every service without a
      flexible policy. It narrows the rows all policies keep to the survivors. */
  method DeleteForOthers(rows: seq<InboundSmsKeyword>, remaining: seq<InboundSmsKeyword>,
                         flexible: seq<ServiceDataRetention>, midnightDaysAgo: MidnightDaysAgo)
    returns (rest: seq<InboundSmsKeyword>, n: nat)
    ensures n + |rest| == |remaining|
    ensures remaining == Filter(rows, KeptBy(flexible, midnightDaysAgo)) ==>
      rest == Filter(rows, Survives(flexible, midnightDaysAgo))
  {
    var defaultCutoff := midnightDaysAgo(DefaultRetentionDays);
    var others := ExceptServices(PolicyServices(flexible));
    var batches;
    rest, n, batches := DeleteOlderThan(remaining, defaultCutoff, others);
    FilterFilter(rows, KeptBy(flexible, midnightDaysAgo), Spared(defaultCutoff, others),
                 Survives(flexible, midnightDaysAgo));
  }

  /** The sweep as the module writes it: it calls `_delete_inbound_sms`, which no
      statement of the module binds, so every call raises NameError and deletes nothing. */
  method SweepAsWritten(rows: seq<InboundSmsKeyword>, retentions: seq<ServiceDataRetention>,
                        withInboundNumber: set<Uuid>, midnightDaysAgo: MidnightDaysAgo)
    returns (r: Result<Swept, SweepError>)
    ensures r == Err(NameError(CalledHelper))
  {
    assert CalledHelper !in ModuleNamespace;
    r := SweepCalling(CalledHelper, rows, retentions, withInboundNumber, midnightDaysAgo);
  }

  /** The sweep calling the helper the module defines: survivors are exactly the rows
      their retention keeps, and the count is the number removed. */
  method DeleteOlderThanRetention(rows: seq<InboundSmsKeyword>, retentions: seq<ServiceDataRetention>,
                                  withInboundNumber: set<Uuid>, midnightDaysAgo: MidnightDaysAgo)
    returns (remaining: seq<InboundSmsKeyword>, deleted: nat)
    ensures remaining == Filter(rows, Survives(FlexibleRetention(retentions, withInboundNumber), midnightDaysAgo))
    ensures deleted == |rows| - |remaining|
  {
    var r := SweepCalling(DeleteHelper, rows, retentions, withInboundNumber, midnightDaysAgo);
    remaining := r.value.remaining;
    deleted := r.value.deleted;
  }

  /** A service with no sms policy of its own (or no inbound number) keeps rows from the
      seven-day cutoff on. */
  lemma DefaultRetentionApplies(retentions: seq<ServiceDataRetention>, withInboundNumber: set<Uuid>,
                                midnightDaysAgo: MidnightDaysAgo, m: InboundSmsKeyword)
    requires forall p :: p in retentions && p.serviceId == m.serviceId ==>
      p.notificationType != SmsType || p.serviceId !in withInboundNumber
    ensures Survives(FlexibleRetention(retentions, withInboundNumber), midnightDaysAgo)(m) <==>
      m.createdAt >= midnightDaysAgo(DefaultRetentionDays)
  {
    var flexible := FlexibleRetention(retentions, withInboundNumber);
    forall j | 0 <= j < |flexible|
      ensures flexible[j].serviceId != m.serviceId
    {
      assert flexible[j] in flexible;
    }
    assert KeptBy(flexible, midnightDaysAgo)(m);
    assert m.serviceId !in PolicyServices(flexible);
  }

  /** A service whose flexible sms policies all say `days` keeps rows from that cutoff on,
      whatever the default. */
  lemma OwnRetentionApplies(retentions: seq<ServiceDataRetention>, withInboundNumber: set<Uuid>,
                            midnightDaysAgo: MidnightDaysAgo, m: InboundSmsKeyword, days: int)
    requires m.serviceId in withInboundNumber
    requires ServiceDataRetention(m.serviceId, SmsType, days) in retentions
    requires forall p :: p in retentions && p.serviceId == m.serviceId && p.notificationType == SmsType ==>
      p.daysOfRetention == days
    ensures Survives(FlexibleRetention(retentions, withInboundNumber), midnightDaysAgo)(m) <==>
      m.createdAt >= midnightDaysAgo(days)
  {
    var flexible := FlexibleRetention(retentions, withInboundNumber);
    var own := ServiceDataRetention(m.serviceId, SmsType, days);
    assert own in flexible;
    var k :| 0 <= k < |flexible| && flexible[k] == own;
    assert m.serviceId in PolicyServices(flexible);
    forall j | 0 <= j < |flexible| && flexible[j].serviceId == m.serviceId
      ensures flexible[j].daysOfRetention == days
    {
      assert flexible[j] in flexible;
    }
    if m.createdAt >= midnightDaysAgo(days) {
      assert KeptBy(flexible, midnightDaysAgo)(m);
    } else {
      assert !KeptBy(flexible, midnightDaysAgo)(m);
    }
  }

  /** Email retention policies never change which rows the sweep keeps. */
  lemma EmailPoliciesIgnored(retentions: seq<ServiceDataRetention>, withInboundNumber: set<Uuid>,
                             policy: ServiceDataRetention)
    requires policy.notificationType != SmsType
    ensures FlexibleRetention(retentions + [policy], withInboundNumber) ==
      FlexibleRetention(retentions, withInboundNumber)
  {
    FilterAppend(retentions, [policy], FlexiblePolicy(withInboundNumber));
    assert Filter([policy], FlexiblePolicy(withInboundNumber)) == [];
  }

  /** A row stamped exactly at the cutoff is not deleted (strict `<`) and is counted by
      the per-service count over the same window (`>=`). */
  lemma CutoffRowSurvivesAndCounts(rows: seq<InboundSmsKeyword>, m: InboundSmsKeyword, days: int,
                                   midnightDaysAgo: MidnightDaysAgo)
    requires m in rows && m.createdAt == midnightDaysAgo(days)
    ensures m in Filter(rows, Spared(midnightDaysAgo(days), OnlyService(m.serviceId)))
    ensures CountForService(rows, m.serviceId, days, midnightDaysAgo) > 0
  {
    var q := CountFilter(m.serviceId, midnightDaysAgo(days));
    assert q(m);
    CountIsFilterLength(rows, q);
    assert m in Filter(rows, q);
  }
}
