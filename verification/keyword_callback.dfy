/** The Sinch keyword callback for inbound short numbers
    (app/notifications/notifications_shortnumber_keyword_callback.py): validate the
    posted payload, resolve the owning service from the number the message was sent
    to, and hand the message to the keyword processor. The service lookup, the
    payload validator and the processor are outside this file and are parameters. */
module KeywordCallback {

  import opened Wrappers
  import opened Vocabulary

  /** The decoded JSON body; every field the handler reads is a string. */
  type Payload = map<string, string>

  const RequiredFields: seq<string> := ["id", "from", "to", "body", "received_at"]
  const ClientName := "Sinch"
  const ProviderName := "sinch"
  const InboundSmsKeywordPermission := "inbound_sms_keyword"
  const SmsPermission := "sms"

  datatype Service = Service(id: string, permissions: seq<string>)

  /** `dao_fetch_service_by_inbound_shortnumber`: the service bound to a number, if any. */
  type ServiceLookup = Option<string> -> Option<Service>

  /** `validate_callback_data`: the error messages for a payload, none when it is complete. */
  type Validator = (Payload, seq<string>) -> seq<string>

  /** What the handler passes to the keyword processor. */
  datatype KeywordCall = KeywordCall(
    service: Service,
    shortNumber: Option<string>,
    fromNumber: Option<string>,
    body: Option<string>,
    receivedAt: Option<string>,
    providerRef: Option<string>,
    clientName: string)

  /** The processor's `(success, errors)` pair; the errors are falsy when empty. */
  datatype Processed = Processed(success: string, errors: seq<string>)

  type Processor = KeywordCall -> Processed

  datatype Response =
    | BadRequest(errors: seq<string>)   // InvalidRequest, status 400
    | Acknowledged                      // 200 {"status": "ok"}
    | Succeeded(message: string)        // 200 {"result": "success", "message": ...}

  /** One handled request: the response, the counters incremented, and the processor
      call made, if any. */
  datatype Handled = Handled(response: Response, metrics: seq<Metric>, call: Option<KeywordCall>)

  /** `dict.get`: absent keys read as None. */
  function Get(data: Payload, key: string): (r: Option<string>)
    ensures r.Some? <==> key in data
    ensures r.Some? ==> r.value == data[key]
  {
    if key in data then Some(data[key]) else None
  }

  /** A stand-in for the validator the handler calls: one message per required field
      that is absent or empty, in field order. */
  function FieldErrors(data: Payload, fields: seq<string>): (errors: seq<string>)
    ensures |errors| <= |fields|
    ensures errors == [] <==> forall f :: f in fields ==> f in data && data[f] != ""
  {
    if |fields| == 0 then []
    else
      var rest := FieldErrors(data, fields[1..]);
      assert forall f :: f in fields <==> f == fields[0] || f in fields[1..];
      if fields[0] in data && data[fields[0]] != "" then rest
      else [ClientName + " callback failed: " + fields[0] + " missing"] + rest
  }

  /** `has_inbound_shortnumber_permissions`: the required pair is a subset of the
      service's permission names. */
  function HasInboundShortNumberPermissions(permissions: seq<string>): (r: bool)
    ensures r <==> InboundSmsKeywordPermission in permissions && SmsPermission in permissions
  {
    {InboundSmsKeywordPermission, SmsPermission} <= set p | p in permissions
  }

  datatype Fetched = Fetched(service: Option<Service>, metrics: seq<Metric>)

  /** `fetch_potential_service`: the bound service when it may receive keywords. An
      unbound number increments the provider's failure counter; a bound service
      without permission is refused without a counter. */
  function FetchPotentialService(shortNumber: Option<string>, providerName: string, lookup: ServiceLookup)
    : (r: Fetched)
    ensures r.service.Some? <==>
      lookup(shortNumber).Some? && HasInboundShortNumberPermissions(lookup(shortNumber).value.permissions)
    ensures r.service.Some? ==> r.service == lookup(shortNumber)
    ensures Incr("inbound_shortnumber." + providerName + ".failed") in r.metrics <==> lookup(shortNumber).None?
    ensures |r.metrics| <= 1
  {
    match lookup(shortNumber)
    case None => Fetched(None, [Incr("inbound_shortnumber." + providerName + ".failed")])
    case Some(service) =>
      if HasInboundShortNumberPermissions(service.permissions) then Fetched(Some(service), [])
      else Fetched(None, [])
  }

  /** `process_sinch_response`. */
  function ProcessSinchResponse(data: Payload, validate: Validator, lookup: ServiceLookup, process: Processor)
    : (r: Handled)
    ensures validate(data, RequiredFields) != [] ==>
      r == Handled(BadRequest(validate(data, RequiredFields)), [], None)
    ensures r.call.Some? ==>
      && validate(data, RequiredFields) == []
      && lookup(Get(data, "to")) == Some(r.call.value.service)
      && HasInboundShortNumberPermissions(r.call.value.service.permissions)
      && r.call.value.shortNumber == Get(data, "to")
      && r.call.value.fromNumber == Get(data, "from")
      && r.call.value.body == Get(data, "body")
      && r.call.value.receivedAt == Get(data, "received_at")
      && r.call.value.providerRef == Get(data, "id")
    ensures r.response.Acknowledged? <==>
      validate(data, RequiredFields) == [] && FetchPotentialService(Get(data, "to"), ProviderName, lookup).service.None?
    ensures r.response.Acknowledged? ==> r.call.None?
    ensures r.response.Succeeded? ==>
      (r.call.Some? && process(r.call.value).errors == [] && r.response.message == process(r.call.value).success)
    ensures r.response.BadRequest? && r.call.Some? ==> r.response.errors == process(r.call.value).errors != []
    ensures validate(data, RequiredFields) == [] && FetchPotentialService(Get(data, "to"), ProviderName, lookup).service.Some? ==>
      && r.call.Some?
      && r.metrics == []
      && (process(r.call.value).errors == [] ==> r.response == Succeeded(process(r.call.value).success))
      && (process(r.call.value).errors != [] ==> r.response == BadRequest(process(r.call.value).errors))
    ensures validate(data, RequiredFields) == [] && r.call.None? ==>
      r.metrics == FetchPotentialService(Get(data, "to"), ProviderName, lookup).metrics
  {
    var errors := validate(data, RequiredFields);
    if errors != [] then Handled(BadRequest(errors), [], None)
    else
      var shortNumber := Get(data, "to");
      var fetched := FetchPotentialService(shortNumber, ProviderName, lookup);
      match fetched.service
      case None => Handled(Acknowledged, fetched.metrics, None)
      case Some(service) =>
        var call := KeywordCall(service, shortNumber, Get(data, "from"), Get(data, "body"),
                                Get(data, "received_at"), Get(data, "id"), ClientName);
        var processed := process(call);
        if processed.errors != [] then Handled(BadRequest(processed.errors), fetched.metrics, Some(call))
        else Handled(Succeeded(processed.success), fetched.metrics, Some(call))
  }

  /** With the field validator, a payload missing any required field is a 400 before
      any lookup, counter or processing. */
  lemma MissingFieldIsBadRequest(data: Payload, field: string, lookup: ServiceLookup, process: Processor)
    requires field in RequiredFields && field !in data
    ensures var r := ProcessSinchResponse(data, FieldErrors, lookup, process);
      r.response.BadRequest? && r.metrics == [] && r.call.None?
  {
  }

  /** An unbound number is acknowledged with 200 ok, and the only effect is the
      provider's failure counter. */
  lemma UnboundNumberAcknowledged(data: Payload, validate: Validator, lookup: ServiceLookup, process: Processor)
    requires validate(data, RequiredFields) == []
    requires lookup(Get(data, "to")).None?
    ensures ProcessSinchResponse(data, validate, lookup, process) ==
      Handled(Acknowledged, [Incr("inbound_shortnumber.sinch.failed")], None)
  {
    assert "inbound_shortnumber." + ProviderName + ".failed" == "inbound_shortnumber.sinch.failed";
  }

  /** A bound service lacking either permission is acknowledged with 200 ok and no
      counter at all. */
  lemma UnpermittedServiceAcknowledgedSilently(data: Payload, validate: Validator, lookup: ServiceLookup,
                                               process: Processor)
    requires validate(data, RequiredFields) == []
    requires lookup(Get(data, "to")).Some?
    requires SmsPermission !in lookup(Get(data, "to")).value.permissions ||
             InboundSmsKeywordPermission !in lookup(Get(data, "to")).value.permissions
    ensures ProcessSinchResponse(data, validate, lookup, process) == Handled(Acknowledged, [], None)
  {
  }
}
