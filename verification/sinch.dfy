/** The pure parts of the Sinch SMS client (app/clients/sms/sinch.py): the delivery
    status map, the callback URL, the batch request it builds, and the control flow
    of `send_sms`. The phone-number matcher, E.164 formatting, NFKD normalisation
    and the XMS `create_batch` call are parameters. */
module SinchClient {

  import opened Wrappers
  import opened Vocabulary

  /** The keys of the status map. */
  const SinchStatuses: set<string> :=
    {"Dispatched", "Queued", "Delivered", "Failed", "Rejected", "Aborted", "Expired", "Unknown"}

  /** Sinch statuses that end a message as a permanent failure. */
  const PermanentStatuses: set<string> := {"Failed", "Rejected", "Aborted", "Expired"}

  const SinchResponseMap: map<string, NotificationStatus> := map[
    "Dispatched" := Created,
    "Queued" := Sending,
    "Delivered" := Delivered,
    "Failed" := PermanentFailure,
    "Rejected" := PermanentFailure,
    "Aborted" := PermanentFailure,
    "Expired" := PermanentFailure,
    "Unknown" := TechnicalFailure]

  datatype KeyError = KeyError(key: string)

  /** `get_sinch_responses`: the notification status for a Sinch status; a key
      outside the map raises. */
  function GetSinchResponses(status: string): (r: Result<NotificationStatus, KeyError>)
    ensures r.Ok? <==> status in SinchStatuses
    ensures r.Err? ==> r.error == KeyError(status)
    ensures r == Ok(PermanentFailure) <==> status in PermanentStatuses
    ensures r == Ok(TechnicalFailure) <==> status == "Unknown"
    ensures r == Ok(Delivered) <==> status == "Delivered"
    ensures r == Ok(Created) <==> status == "Dispatched"
    ensures r == Ok(Sending) <==> status == "Queued"
    ensures r != Ok(TemporaryFailure)
  {
    if status in SinchResponseMap then Ok(SinchResponseMap[status]) else Err(KeyError(status))
  }

  /** Path under the callback host that receives delivery reports. */
  const CallbackPath := "/notifications/sms/sinch/"

  /** The delivery-report URL: host, path and reference when a host is configured,
      otherwise the empty string. */
  function CallbackUrl(host: Option<string>, reference: string): (r: string)
    ensures !Truthy(host) <==> r == ""
    ensures Truthy(host) ==>
      && |r| == |host.value| + |CallbackPath| + |reference|
      && r[..|host.value|] == host.value
      && r[|host.value|..|host.value| + |CallbackPath|] == CallbackPath
      && r[|host.value| + |CallbackPath|..] == reference
  {
    if Truthy(host) then host.value + CallbackPath + reference else ""
  }

  /** The reference can be read back from the URL: one host never gives two
      references the same URL. */
  lemma CallbackUrlDeterminesReference(host: Option<string>, a: string, b: string)
    requires Truthy(host)
    requires CallbackUrl(host, a) == CallbackUrl(host, b)
    ensures a == b
  {
    var u := CallbackUrl(host, a);
    assert a == u[|host.value| + |CallbackPath|..] == b;
  }

  /** `MtBatchTextSmsCreate` as filled in by `send_sms`. */
  datatype BatchRequest = BatchRequest(
    sender: Option<string>,
    recipients: set<string>,
    body: string,
    clientReference: string,
    deliveryReport: string,
    callbackUrl: string)

  /** Exceptions `create_batch` may raise; all of them are handled alike. */
  datatype ClientFailure = RequestException | ApiException | OtherException

  datatype BatchOutcome = BatchCreated(batchId: string) | BatchFailed(failure: ClientFailure)

  /** The outside world of one `send_sms` call. */
  datatype Environment = Environment(
    callbackHost: Option<string>,
    matchNumbers: string -> seq<string>,     // `PhoneNumberMatcher(to, "US")`
    formatE164: string -> string,            // `format_number(..., E164)`
    normalize: string -> string,             // NFKD normalisation
    createBatch: BatchRequest -> BatchOutcome)

  datatype SendError =
    | NoValidNumbers                 // ValueError("No valid numbers found for SMS delivery")
    | Raised(failure: ClientFailure) // the client's exception, re-raised
    | UnboundBatch                   // UnboundLocalError on `batch` in the finally block

  /** One `send_sms` call: what it returns or raises, the requests sent, the metrics. */
  datatype Sent = Sent(result: Result<string, SendError>, requests: seq<BatchRequest>, metrics: seq<Metric>)

  const ErrorCounter := Incr("clients.sinch.error")
  const SuccessCounter := Incr("clients.sinch.success")
  const RequestTimer := Timing("clients.sinch.request-time")

  /** The request for one matched number. */
  function Request(number: string, content: string, reference: string, sender: Option<string>, env: Environment)
    : (r: BatchRequest)
    ensures r.recipients == {env.formatE164(number)}
    ensures r.clientReference == reference && r.deliveryReport == "per_recipient"
    ensures r.body == env.normalize(content) && r.sender == sender
    ensures r.callbackUrl == CallbackUrl(env.callbackHost, reference)
  {
    BatchRequest(sender, {env.formatE164(number)}, env.normalize(content), reference, "per_recipient",
                 CallbackUrl(env.callbackHost, reference))
  }

  /** `send_sms` as written. The `return` inside `finally` leaves the loop after the
      first matched number, discards the exception `create_batch` raised, and then
      fails on the unbound `batch`; the finally block counts a success either way. */
  function SendSmsAsWritten(to: string, content: string, reference: string, sender: Option<string>,
                            env: Environment): (r: Sent)
    ensures env.matchNumbers(to) == [] <==> r.result == Err(NoValidNumbers)
    ensures env.matchNumbers(to) == [] ==> r.requests == [] && r.metrics == [ErrorCounter]
    ensures env.matchNumbers(to) != [] ==>
      r.requests == [Request(env.matchNumbers(to)[0], content, reference, sender, env)]
    ensures env.matchNumbers(to) != [] ==> SuccessCounter in r.metrics
    ensures r.result.Ok? <==> |r.requests| == 1 && env.createBatch(r.requests[0]).BatchCreated?
    ensures r.result.Ok? ==> r.result.value == env.createBatch(r.requests[0]).batchId
  {
    var numbers := env.matchNumbers(to);
    if numbers == [] then Sent(Err(NoValidNumbers), [], [ErrorCounter])
    else
      var request := Request(numbers[0], content, reference, sender, env);
      match env.createBatch(request)
      case BatchCreated(id) => Sent(Ok(id), [request], [RequestTimer, SuccessCounter])
      case BatchFailed(_) => Sent(Err(UnboundBatch), [request], [ErrorCounter, RequestTimer, SuccessCounter])
  }

  /** A failed `create_batch` surfaces as an unbound-variable error, not as the
      client's exception, and is still counted as a success. */
  lemma FailureMaskedAsWritten(to: string, content: string, reference: string, sender: Option<string>,
                               env: Environment)
    requires env.matchNumbers(to) != []
    requires env.createBatch(Request(env.matchNumbers(to)[0], content, reference, sender, env)).BatchFailed?
    ensures var r := SendSmsAsWritten(to, content, reference, sender, env);
      && r.result == Err(UnboundBatch)
      && ErrorCounter in r.metrics
      && SuccessCounter in r.metrics
  {
  }

  /** `send_sms` as evidently intended: a failed `create_batch` re-raises its
      exception and is counted only as an error; the finally block keeps the timer.
      The single reference returned still comes from the first matched number. */
  function SendSms(to: string, content: string, reference: string, sender: Option<string>, env: Environment)
    : (r: Sent)
    ensures env.matchNumbers(to) == [] <==> r.result == Err(NoValidNumbers)
    ensures env.matchNumbers(to) == [] ==> r.requests == [] && r.metrics == [ErrorCounter]
    ensures env.matchNumbers(to) != [] ==>
      r.requests == [Request(env.matchNumbers(to)[0], content, reference, sender, env)]
    ensures SuccessCounter in r.metrics <==> r.result.Ok?
    ensures ErrorCounter in r.metrics <==> r.result.Err?
    ensures r.result.Ok? <==> |r.requests| == 1 && env.createBatch(r.requests[0]).BatchCreated?
    ensures r.result.Ok? ==> r.result.value == env.createBatch(r.requests[0]).batchId
    ensures r.result.Err? && r.requests != [] ==> r.result.error == Raised(env.createBatch(r.requests[0]).failure)
  {
    var numbers := env.matchNumbers(to);
    if numbers == [] then Sent(Err(NoValidNumbers), [], [ErrorCounter])
    else
      var request := Request(numbers[0], content, reference, sender, env);
      match env.createBatch(request)
      case BatchCreated(id) => Sent(Ok(id), [request], [RequestTimer, SuccessCounter])
      case BatchFailed(failure) => Sent(Err(Raised(failure)), [request], [ErrorCounter, RequestTimer])
  }

  /** The two versions agree whenever `create_batch` succeeds or no number matches. */
  lemma AsWrittenAgreesOnSuccess(to: string, content: string, reference: string, sender: Option<string>,
                                 env: Environment)
    ensures var w := SendSmsAsWritten(to, content, reference, sender, env);
      var c := SendSms(to, content, reference, sender, env);
      w.requests == c.requests && (c.result.Ok? || c.result == Err(NoValidNumbers) ==> w == c)
  {
  }

  /** Numbers after the first one matched never influence the call. */
  lemma OnlyFirstNumberSent(to: string, to': string, content: string, reference: string,
                            sender: Option<string>, env: Environment, env': Environment)
    requires env.matchNumbers(to) != [] && env'.matchNumbers(to') != []
    requires env.matchNumbers(to)[0] == env'.matchNumbers(to')[0]
    requires env' == env.(matchNumbers := env'.matchNumbers)
    ensures SendSms(to, content, reference, sender, env) == SendSms(to', content, reference, sender, env')
    ensures SendSmsAsWritten(to, content, reference, sender, env) ==
      SendSmsAsWritten(to', content, reference, sender, env')
  {
  }
}
