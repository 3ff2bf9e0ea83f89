/** The dispatch tasks as their tests pin them down (tests/app/celery/test_tasks.py):
    choosing a provider, admitting a CSV job against the daily sending limit, and
    what `send_sms` and `send_email` persist and enqueue. The Celery module itself
    (app/celery/tasks.py) is not part of this model, so each function here is a
    reference definition of the behaviour those tests assert. Storage, S3, the
    queue, encryption, the clock and the email client are parameters. */
module Dispatch {

  import opened Wrappers
  import opened Vocabulary

  type Uuid = string
  type Timestamp = int

  datatype Channel = Sms | Email

  // ---------------------------------------------------------------- providers

  datatype ProviderDetails = ProviderDetails(identifier: string, channel: Channel, priority: int, active: bool)

  predicate Eligible(p: ProviderDetails, channel: Channel)
  {
    p.active && p.channel == channel
  }

  /** `provider_to_use`: the active provider for the channel with the lowest numeric
      priority (priority 1 outranks priority 2); the earliest listed on a tie. */
  function ProviderToUse(providers: seq<ProviderDetails>, channel: Channel): (r: Option<ProviderDetails>)
    ensures r.Some? <==> exists k :: 0 <= k < |providers| && Eligible(providers[k], channel)
    ensures r.Some? ==> r.value in providers && Eligible(r.value, channel)
    ensures r.Some? ==>
      forall k :: 0 <= k < |providers| && Eligible(providers[k], channel) ==> r.value.priority <= providers[k].priority
  {
    if |providers| == 0 then None
    else
      var rest := ProviderToUse(providers[1..], channel);
      assert forall k :: 1 <= k < |providers| ==> providers[k] == providers[1..][k - 1];
      if !Eligible(providers[0], channel) then rest
      else if rest.None? || providers[0].priority <= rest.value.priority then Some(providers[0])
      else rest
  }

  /** The choice is the unique winner when one eligible provider has a strictly lower
      priority than every other eligible one. */
  lemma StrictlyLowestWins(providers: seq<ProviderDetails>, channel: Channel, i: int)
    requires 0 <= i < |providers| && Eligible(providers[i], channel)
    requires forall k :: 0 <= k < |providers| && k != i && Eligible(providers[k], channel) ==>
      providers[i].priority < providers[k].priority
    ensures ProviderToUse(providers, channel) == Some(providers[i])
  {
    var r := ProviderToUse(providers, channel);
    var k :| 0 <= k < |providers| && providers[k] == r.value;
  }

  /** The scenario of the provider test: two sms providers; lowering the second's
      priority switches to it, deactivating the first keeps the second even when the
      first ranks higher, and reactivating the first restores it. */
  lemma ProviderSwitching(first: ProviderDetails, second: ProviderDetails)
    requires first.channel == Sms && second.channel == Sms && first.active && second.active
    ensures ProviderToUse([first.(priority := 20), second.(priority := 10)], Sms) == Some(second.(priority := 10))
    ensures ProviderToUse([first.(priority := 10, active := false), second.(priority := 20)], Sms) ==
      Some(second.(priority := 20))
    ensures ProviderToUse([first.(priority := 10), second.(priority := 20)], Sms) == Some(first.(priority := 10))
  {
    StrictlyLowestWins([first.(priority := 20), second.(priority := 10)], Sms, 1);
    StrictlyLowestWins([first.(priority := 10, active := false), second.(priority := 20)], Sms, 1);
    StrictlyLowestWins([first.(priority := 10), second.(priority := 20)], Sms, 0);
  }

  // ---------------------------------------------------------------- jobs

  datatype Service = Service(
    id: Uuid,
    messageLimit: nat,
    restricted: bool,
    researchMode: bool,
    replyToEmailAddress: Option<string>,
    memberContacts: seq<string>)   // mobile numbers and email addresses of the service's users

  datatype Job = Job(id: Uuid, serviceId: Uuid, notificationCount: nat, channel: Channel)

  /** One row of the job's CSV file. */
  datatype Row = Row(recipient: string, personalisation: map<string, string>)

  /** The notification a send task carries (encrypted on the queue). */
  datatype Payload = Payload(
    template: Uuid,
    templateVersion: nat,
    to: string,
    personalisation: map<string, string>,
    job: Option<Uuid>,
    rowNumber: Option<nat>)

  /** A queued `send_sms`/`send_email` task; email tasks carry the reply-to keyword. */
  datatype SendTask = SendTask(
    channel: Channel,
    serviceId: Uuid,
    notificationId: Uuid,
    payload: Payload,
    queue: string,
    replyTo: Option<string>)

  const SendingLimitsExceeded := "sending limits exceeded"
  const Finished := "finished"

  /** The outcome of `process_job`: the job's final status, whether the CSV was fetched,
      the send tasks queued, and whether the job's removal was queued. */
  datatype JobRun = JobRun(status: string, fetched: bool, tasks: seq<SendTask>, removeQueued: bool)

  function BulkQueue(channel: Channel): string
  {
    match channel
    case Sms => "bulk-sms"
    case Email => "bulk-email"
  }

  /** Whether a job would take the service past its daily limit, counting what it has
      already sent today. */
  predicate ExceedsLimit(job: Job, service: Service, sentToday: nat)
  {
    sentToday + job.notificationCount > service.messageLimit
  }

  /** One send task per CSV row, numbered from 0 in file order. */
  function RowTasks(job: Job, service: Service, templateId: Uuid, templateVersion: nat, rows: seq<Row>,
                    notificationIds: nat -> Uuid, from: nat): (r: seq<SendTask>)
    ensures |r| == |rows|
    ensures forall k :: 0 <= k < |rows| ==>
      && r[k].channel == job.channel
      && r[k].serviceId == service.id
      && r[k].notificationId == notificationIds(from + k)
      && r[k].payload == Payload(templateId, templateVersion, rows[k].recipient, rows[k].personalisation,
                                 Some(job.id), Some(from + k))
      && r[k].queue == BulkQueue(job.channel)
      && r[k].replyTo == (if job.channel == Email then service.replyToEmailAddress else None)
    decreases |rows|
  {
    if |rows| == 0 then []
    else
      var task := SendTask(job.channel, service.id, notificationIds(from),
                           Payload(templateId, templateVersion, rows[0].recipient, rows[0].personalisation,
                                   Some(job.id), Some(from)),
                           BulkQueue(job.channel),
                           if job.channel == Email then service.replyToEmailAddress else None);
      [task] + RowTasks(job, service, templateId, templateVersion, rows[1..], notificationIds, from + 1)
  }

  /** `process_job`. `rows` is what fetching the job's file from S3 would return. */
  function ProcessJob(job: Job, service: Service, sentToday: nat, templateId: Uuid, templateVersion: nat,
                      rows: seq<Row>, notificationIds: nat -> Uuid): (r: JobRun)
    ensures r.status == SendingLimitsExceeded <==> ExceedsLimit(job, service, sentToday)
    ensures ExceedsLimit(job, service, sentToday) ==> !r.fetched && r.tasks == [] && !r.removeQueued
    ensures !ExceedsLimit(job, service, sentToday) ==> r.fetched && r.status == Finished && r.removeQueued
    ensures !ExceedsLimit(job, service, sentToday) ==> |r.tasks| == |rows|
    ensures !ExceedsLimit(job, service, sentToday) ==> forall k :: 0 <= k < |rows| ==>
      && r.tasks[k].notificationId == notificationIds(k)
      && r.tasks[k].payload == Payload(templateId, templateVersion, rows[k].recipient, rows[k].personalisation,
                                       Some(job.id), Some(k))
    ensures forall t :: t in r.tasks ==> t.queue == BulkQueue(job.channel) && t.serviceId == service.id
  {
    if ExceedsLimit(job, service, sentToday) then JobRun(SendingLimitsExceeded, false, [], false)
    else JobRun(Finished, true, RowTasks(job, service, templateId, templateVersion, rows, notificationIds, 0), true)
  }

  /** A job of exactly the remaining allowance is processed; one more is refused. */
  lemma LimitBoundary(job: Job, service: Service, sentToday: nat, templateId: Uuid, templateVersion: nat,
                      rows: seq<Row>, notificationIds: nat -> Uuid)
    requires sentToday + job.notificationCount == service.messageLimit
    ensures ProcessJob(job, service, sentToday, templateId, templateVersion, rows, notificationIds).status == Finished
    ensures ProcessJob(job, service, sentToday + 1, templateId, templateVersion, rows, notificationIds).status ==
      SendingLimitsExceeded
  {
  }

  /** With a limit of 0 no job is processed, however small. */
  lemma ZeroLimitRefusesEverything(job: Job, service: Service, sentToday: nat, templateId: Uuid,
                                   templateVersion: nat, rows: seq<Row>, notificationIds: nat -> Uuid)
    requires service.messageLimit == 0 && job.notificationCount > 0
    ensures ProcessJob(job, service, sentToday, templateId, templateVersion, rows, notificationIds) ==
      JobRun(SendingLimitsExceeded, false, [], false)
  {
  }

  // ---------------------------------------------------------------- send tasks

  datatype Notification = Notification(
    id: Uuid,
    serviceId: Uuid,
    to: string,
    templateId: Uuid,
    templateVersion: nat,
    status: NotificationStatus,
    createdAt: Timestamp,
    sentAt: Option<Timestamp>,
    sentBy: Option<string>,
    jobId: Option<Uuid>,
    jobRowNumber: Option<nat>,
    reference: Option<string>,
    personalisation: map<string, string>)

  /** A restricted service may only send to its own members; recipients are compared
      after `canonical` puts them in one format. */
  predicate MaySendTo(service: Service, to: string, canonical: string -> string)
  {
    || !service.restricted
    || exists k :: 0 <= k < |service.memberContacts| && canonical(service.memberContacts[k]) == canonical(to)
  }

  /** The outcome of a `send_sms` task: the row stored, the provider task's queue, and
      the queue of the retry scheduled. */
  datatype SmsRun = SmsRun(persisted: Option<Notification>, providerQueue: Option<string>, retryQueue: Option<string>)

  /** The notification row a send task creates before any provider is involved. */
  function NewNotification(service: Service, id: Uuid, payload: Payload, createdAt: Timestamp): (n: Notification)
    ensures n.id == id && n.serviceId == service.id && n.to == payload.to
    ensures n.templateId == payload.template && n.templateVersion == payload.templateVersion
    ensures n.status == Created && n.createdAt == createdAt && n.sentAt.None? && n.sentBy.None?
    ensures n.jobId == payload.job && n.jobRowNumber == payload.rowNumber && n.reference.None?
    ensures n.personalisation == payload.personalisation
  {
    Notification(id, service.id, payload.to, payload.template, payload.templateVersion, Created, createdAt,
                 None, None, payload.job, payload.rowNumber, None, payload.personalisation)
  }

  /** `send_sms`. `insertFails` says whether storing the row raises. */
  function SendSmsTask(service: Service, id: Uuid, payload: Payload, createdAt: Timestamp,
                       canonical: string -> string, insertFails: bool): (r: SmsRun)
    ensures !MaySendTo(service, payload.to, canonical) ==> r == SmsRun(None, None, None)
    ensures r.persisted.Some? <==> MaySendTo(service, payload.to, canonical) && !insertFails
    ensures r.providerQueue.Some? <==> r.persisted.Some?
    ensures r.providerQueue.Some? ==> r.providerQueue.value == "sms"
    ensures r.retryQueue.Some? <==> MaySendTo(service, payload.to, canonical) && insertFails
    ensures r.retryQueue.Some? ==> r.retryQueue.value == "retry"
    ensures r.persisted.Some? ==> r.persisted.value == NewNotification(service, id, payload, createdAt)
  {
    if !MaySendTo(service, payload.to, canonical) then SmsRun(None, None, None)
    else if insertFails then SmsRun(None, None, Some("retry"))
    else SmsRun(Some(NewNotification(service, id, payload, createdAt)), Some("sms"), None)
  }

  /** A restricted service's member is reached whatever format the number is written in. */
  lemma MemberInAnotherFormatAccepted(service: Service, id: Uuid, payload: Payload, createdAt: Timestamp,
                                      canonical: string -> string, k: int)
    requires 0 <= k < |service.memberContacts|
    requires canonical(service.memberContacts[k]) == canonical(payload.to)
    ensures SendSmsTask(service, id, payload, createdAt, canonical, false).persisted.Some?
  {
  }

  /** What the email client did with a notification. */
  datatype ClientReply = ClientReference(reference: string) | ClientFailed

  /** The outcome of a `send_email` task: the row stored, the recipient handed to the
      email client, and the research-mode response task. */
  datatype EmailRun = EmailRun(persisted: Option<Notification>, clientCall: Option<string>,
                               researchResponse: Option<ResponseTask>)

  /** A queued `send_email_response` task: its (provider, reference, recipient)
      arguments and the queue it is sent to. */
  datatype ResponseTask = ResponseTask(args: (string, string, string), queue: string)

  const ClientName := "ses"
  const ResearchModeQueue := "research-mode"

  /** `send_email`. In research mode the client is not called and a generated
      reference is recorded; otherwise the client's reference is recorded, and a
      client failure marks the row as a technical failure. */
  function SendEmailTask(service: Service, id: Uuid, payload: Payload, createdAt: Timestamp, now: Timestamp,
                         canonical: string -> string, insertFails: bool, generatedReference: string,
                         client: string -> ClientReply): (r: EmailRun)
    ensures !MaySendTo(service, payload.to, canonical) || insertFails ==> r == EmailRun(None, None, None)
    ensures r.persisted.Some? <==> MaySendTo(service, payload.to, canonical) && !insertFails
    ensures r.clientCall.Some? <==> r.persisted.Some? && !service.researchMode
    ensures r.clientCall.Some? ==> r.clientCall.value == payload.to
    ensures r.researchResponse.Some? <==> r.persisted.Some? && service.researchMode
    ensures r.researchResponse.Some? ==> r.researchResponse.value.args == (ClientName, generatedReference, payload.to)
    ensures r.researchResponse.Some? ==> r.researchResponse.value.queue == "research-mode"
    ensures r.persisted.Some? ==>
      var n := r.persisted.value;
      && n == NewNotification(service, id, payload, createdAt).(
               status := n.status, sentAt := Some(now), sentBy := Some(ClientName), reference := n.reference)
      && (n.status == Sending <==> service.researchMode || client(payload.to).ClientReference?)
      && (n.status == TechnicalFailure <==> !service.researchMode && client(payload.to).ClientFailed?)
      && (service.researchMode ==> n.reference == Some(generatedReference))
      && (!service.researchMode && client(payload.to).ClientReference? ==>
            n.reference == Some(client(payload.to).reference))
  {
    if !MaySendTo(service, payload.to, canonical) || insertFails then EmailRun(None, None, None)
    else
      var created := NewNotification(service, id, payload, createdAt).(sentAt := Some(now), sentBy := Some(ClientName));
      if service.researchMode then
        EmailRun(Some(created.(status := Sending, reference := Some(generatedReference))), None,
                 Some(ResponseTask((ClientName, generatedReference, payload.to), ResearchModeQueue)))
      else
        match client(payload.to)
        case ClientReference(reference) =>
          EmailRun(Some(created.(status := Sending, reference := Some(reference))), Some(payload.to), None)
        case ClientFailed =>
          EmailRun(Some(created.(status := TechnicalFailure)), Some(payload.to), None)
  }
}
