/** The pure parts of the Amazon SES email client (app/clients/email/aws_ses.py): the
    bounce/delivery map, punycode encoding of addresses, assembly of the multipart
    message, and the classification of what `send_raw_email` returns or raises.
    IDNA ToASCII (section 4.1 of RFC 3490), NFKD normalisation, RFC 2047 header
    encoding and the SES call itself are parameters; MIME serialisation is left out. */
module SesClient {

  import opened Wrappers
  import opened Vocabulary
  import opened Text

  /** One entry of the SES notification map. */
  datatype SesResponse = SesResponse(
    message: string,
    success: bool,
    notificationStatus: NotificationStatus,
    statisticsStatus: StatisticsStatus)

  const SesStatuses: set<string> := {"Permanent", "Temporary", "Delivery", "Complaint"}

  const SesResponseMap: map<string, SesResponse> := map[
    "Permanent" := SesResponse("Hard bounced", false, PermanentFailure, StatisticsFailure),
    "Temporary" := SesResponse("Soft bounced", false, TemporaryFailure, StatisticsFailure),
    "Delivery" := SesResponse("Delivered", true, Delivered, StatisticsDelivered),
    "Complaint" := SesResponse("Complaint", true, Delivered, StatisticsDelivered)]

  datatype KeyError = KeyError(key: string)

  /** `get_aws_responses`: a key outside the map raises. */
  function GetAwsResponses(status: string): (r: Result<SesResponse, KeyError>)
    ensures r.Ok? <==> status in SesStatuses
    ensures r.Err? ==> r.error == KeyError(status)
    ensures r.Ok? ==> (r.value.success <==> r.value.notificationStatus == Delivered)
    ensures r.Ok? ==> (r.value.statisticsStatus == StatisticsDelivered <==> r.value.success)
    ensures r.Ok? && r.value.notificationStatus == Delivered <==> status == "Delivery" || status == "Complaint"
    ensures r.Ok? && r.value.notificationStatus == PermanentFailure <==> status == "Permanent"
    ensures r.Ok? && r.value.notificationStatus == TemporaryFailure <==> status == "Temporary"
  {
    if status in SesResponseMap then Ok(SesResponseMap[status]) else Err(KeyError(status))
  }

  /** Why an address could not be encoded. */
  datatype EncodeError =
    | UnpackError(pieces: nat)   // `local, hostname = ...split('@')` with the wrong number of pieces
    | IdnaError(hostname: string) // the hostname has no IDNA ASCII form

  /** IDNA ToASCII of a hostname, None when it has none. */
  type ToAscii = string -> Option<string>

  /** `punycode_encode_email`: the local part as it is, `@`, and the ASCII form of the
      hostname. */
  function PunycodeEncodeEmail(address: string, toAscii: ToAscii): (r: Result<string, EncodeError>)
    ensures r.Ok? <==> Occurrences(address, '@') == 1 && toAscii(Split(address, '@')[1]).Some?
    ensures Occurrences(address, '@') != 1 ==> r == Err(UnpackError(Occurrences(address, '@') + 1))
    ensures r.Ok? ==> r.value == Split(address, '@')[0] + "@" + toAscii(Split(address, '@')[1]).value
  {
    var pieces := Split(address, '@');
    if |pieces| != 2 then Err(UnpackError(|pieces|))
    else
      match toAscii(pieces[1])
      case None => Err(IdnaError(pieces[1]))
      case Some(host) => Ok(pieces[0] + "@" + host)
  }

  /** Only the hostname changes: an address whose hostname is already its own ASCII
      form comes back unchanged. */
  lemma AsciiAddressUnchanged(address: string, toAscii: ToAscii)
    requires Occurrences(address, '@') == 1
    requires toAscii(Split(address, '@')[1]) == Some(Split(address, '@')[1])
    ensures PunycodeEncodeEmail(address, toAscii) == Ok(address)
  {
    var pieces := Split(address, '@');
    JoinSplit(address, '@');
    assert Join(pieces, "@") == pieces[0] + "@" + Join(pieces[1..], "@");
    assert pieces[1..] == [pieces[1]];
  }

  /** Splitting an encoded address at '@' gives back the original local part and the
      ASCII hostname. */
  lemma LocalPartPreserved(address: string, toAscii: ToAscii)
    requires PunycodeEncodeEmail(address, toAscii).Ok?
    ensures var pieces := Split(address, '@');
      var host := toAscii(pieces[1]).value;
      '@' !in host ==> Split(PunycodeEncodeEmail(address, toAscii).value, '@') == [pieces[0], host]
  {
    var pieces := Split(address, '@');
    var host := toAscii(pieces[1]).value;
    if '@' !in host {
      var encoded := pieces[0] + "@" + host;
      var i := |pieces[0]|;
      assert encoded[i] == '@';
      assert encoded[..i] == pieces[0];
      assert '@' !in encoded[..i];
      assert encoded[i + 1..] == host;
    }
  }

  /** Encode each address in order; the first failure is raised. */
  function EncodeAll(addresses: seq<string>, toAscii: ToAscii): (r: Result<seq<string>, EncodeError>)
    ensures r.Ok? <==> forall k :: 0 <= k < |addresses| ==> PunycodeEncodeEmail(addresses[k], toAscii).Ok?
    ensures r.Ok? ==> |r.value| == |addresses|
    ensures r.Ok? ==>
      forall k :: 0 <= k < |addresses| ==> r.value[k] == PunycodeEncodeEmail(addresses[k], toAscii).value
    ensures r.Err? ==>
      exists k :: 0 <= k < |addresses| && PunycodeEncodeEmail(addresses[k], toAscii).Err? &&
        r.error == PunycodeEncodeEmail(addresses[k], toAscii).error
  {
    if |addresses| == 0 then Ok([])
    else
      match PunycodeEncodeEmail(addresses[0], toAscii)
      case Err(e) => Err(e)
      case Ok(first) =>
        match EncodeAll(addresses[1..], toAscii)
        case Err(e) =>
          Err(e)
        case Ok(rest) =>
          Ok([first] + rest)
  }

  /** A `to`/`cc` argument: a bare string or a list of strings. */
  datatype Recipients = OneAddress(address: string) | AddressList(addresses: seq<string>)

  /** A bare string is wrapped as a one-element list. */
  function AsList(r: Recipients): (addresses: seq<string>)
    ensures r.OneAddress? ==> addresses == [r.address]
    ensures r.AddressList? ==> addresses == r.addresses
  {
    match r
    case OneAddress(a) => [a]
    case AddressList(l) => l
  }

  datatype Attachment = Attachment(name: string, data: string)

  datatype Email = Email(
    source: string,
    sendingDomain: string,
    to: Recipients,
    subject: string,
    body: string,
    htmlBody: string,
    replyTo: Option<string>,
    attachments: Option<seq<Attachment>>,
    importance: Option<string>,
    cc: Option<Recipients>)

  datatype SesConfig = SesConfig(ownerAccount: Option<string>, region: string)

  /** The library functions the client relies on. */
  datatype Codecs = Codecs(
    normalize: string -> string,      // NFKD
    encodeHeader: string -> string,   // `Header(s, 'utf-8').encode()`
    toAscii: ToAscii)

  datatype Header = Header(name: string, value: string)

  datatype Part =
    | PlainPart(text: string)
    | HtmlPart(text: string)
    | AttachmentPart(filename: string, data: string)

  datatype MimeMessage = MimeMessage(subtype: string, headers: seq<Header>, parts: seq<Part>)

  function Names(headers: seq<Header>): (names: seq<string>)
    ensures |names| == |headers| && forall k :: 0 <= k < |headers| ==> names[k] == headers[k].name
  {
    if |headers| == 0 then [] else [headers[0].name] + Names(headers[1..])
  }

  /** The sending identity's ARN when an owner account is configured. */
  function SourceArn(config: SesConfig, sendingDomain: string): (r: Option<string>)
    ensures r.Some? <==> Truthy(config.ownerAccount)
  {
    if Truthy(config.ownerAccount) then
      Some("arn:aws:ses:" + config.region + ":" + config.ownerAccount.value + ":identity/" + sendingDomain)
    else None
  }

  /** The From header: the display name before the first `<` without double quotes,
      header-encoded, then a space and the `<...>` remainder exactly as given. */
  function EncodedSource(source: string, codecs: Codecs): (r: string)
    ensures var s := codecs.normalize(source);
      '<' in s ==>
        r == codecs.encodeHeader(Remove(s[..IndexOf(s, '<')], '"')) + " " + s[IndexOf(s, '<')..]
    ensures '<' !in codecs.normalize(source) ==>
      r == codecs.encodeHeader(Remove(codecs.normalize(source), '"')) + " "
  {
    var s := codecs.normalize(source);
    var (name, sep, address) := Partition(s, '<');
    assert '<' in s ==> name == s[..IndexOf(s, '<')] && sep + address == s[IndexOf(s, '<')..];
    codecs.encodeHeader(Remove(name, '"')) + " " + sep + address
  }

  /** `'alternative'` when there is an html body, otherwise `'mixed'` (section 5.1 of
      RFC 2046). */
  function Subtype(htmlBody: string): (r: string)
    ensures r == "alternative" <==> htmlBody != ""
    ensures r == "mixed" <==> htmlBody == ""
  {
    if htmlBody != "" then "alternative" else "mixed"
  }

  function AttachmentParts(attachments: seq<Attachment>): (r: seq<Part>)
    ensures |r| == |attachments|
    ensures forall k :: 0 <= k < |r| ==> r[k] == AttachmentPart(attachments[k].name, attachments[k].data)
  {
    if |attachments| == 0 then []
    else [AttachmentPart(attachments[0].name, attachments[0].data)] + AttachmentParts(attachments[1..])
  }

  /** The parts in attachment order: plain text, html when present, then the files. */
  function Parts(email: Email): (r: seq<Part>)
    ensures |r| >= 1 && r[0] == PlainPart(email.body)
    ensures email.htmlBody != "" ==> |r| >= 2 && r[1] == HtmlPart(email.htmlBody)
    ensures forall k :: 0 <= k < |r| ==> (r[k].HtmlPart? <==> k == 1 && email.htmlBody != "")
    ensures var files := email.attachments.GetOr([]);
      var first := if email.htmlBody != "" then 2 else 1;
      && |r| == first + |files|
      && forall k :: 0 <= k < |files| ==> r[first + k] == AttachmentPart(files[k].name, files[k].data)
  {
    [PlainPart(email.body)]
    + (if email.htmlBody != "" then [HtmlPart(email.htmlBody)] else [])
    + AttachmentParts(email.attachments.GetOr([]))
  }

  /** The CC addresses, a bare string wrapped; none when no CC is given. */
  function CcAddresses(cc: Option<Recipients>): seq<string>
  {
    if cc.Some? then AsList(cc.value) else []
  }

  lemma {:induction false} NamesAppend(a: seq<Header>, b: seq<Header>)
    ensures Names(a + b) == Names(a) + Names(b)
  {
    if |a| > 0 {
      assert (a + b)[1..] == a[1..] + b;
      NamesAppend(a[1..], b);
    } else {
      assert a + b == b;
    }
  }

  /** The two ARN headers, present only when an owner account is configured. */
  function ArnHeaders(config: SesConfig, sendingDomain: string): (r: seq<Header>)
    ensures Truthy(config.ownerAccount) ==> Names(r) == ["X-SES-SOURCE-ARN", "X-SES-FROM-ARN"]
    ensures !Truthy(config.ownerAccount) ==> r == []
    ensures forall k :: 0 <= k < |r| ==> r[k].value == SourceArn(config, sendingDomain).value
  {
    match SourceArn(config, sendingDomain)
    case Some(arn) => [Header("X-SES-SOURCE-ARN", arn), Header("X-SES-FROM-ARN", arn)]
    case None => []
  }

  /** The importance header when an importance is given. */
  function ImportanceHeader(importance: Option<string>): (r: seq<Header>)
    ensures Truthy(importance) <==> r == [Header("importance", importance.GetOr(""))]
    ensures !Truthy(importance) <==> r == []
  {
    if Truthy(importance) then [Header("importance", importance.value)] else []
  }

  /** The CC header: the encoded addresses joined by commas, when there are any. */
  function CcHeader(cc: Option<Recipients>, toAscii: ToAscii): (r: Result<seq<Header>, EncodeError>)
    ensures r.Ok? <==> CcAddresses(cc) == [] || EncodeAll(CcAddresses(cc), toAscii).Ok?
    ensures r.Ok? && CcAddresses(cc) == [] ==> r.value == []
    ensures r.Ok? && CcAddresses(cc) != [] ==>
      r.value == [Header("CC", Join(EncodeAll(CcAddresses(cc), toAscii).value, ","))]
  {
    var addresses := CcAddresses(cc);
    if addresses == [] then Ok([])
    else
      var encoded :- EncodeAll(addresses, toAscii);
      Ok([Header("CC", Join(encoded, ","))])
  }

  /** The reply-to header: the one encoded address, when a reply-to is given. */
  function ReplyToHeader(replyTo: Option<string>, toAscii: ToAscii): (r: Result<seq<Header>, EncodeError>)
    ensures r.Ok? <==> !Truthy(replyTo) || PunycodeEncodeEmail(replyTo.value, toAscii).Ok?
    ensures r.Ok? && !Truthy(replyTo) ==> r.value == []
    ensures r.Ok? && Truthy(replyTo) ==>
      r.value == [Header("reply-to", PunycodeEncodeEmail(replyTo.value, toAscii).value)]
  {
    if !Truthy(replyTo) then Ok([])
    else
      var encoded :- EncodeAll([replyTo.value], toAscii);
      assert Join(encoded, ",") == encoded[0];
      Ok([Header("reply-to", Join(encoded, ","))])
  }

  /** Headers after Subject, From and To, in the order they are added. */
  function OptionalHeaders(email: Email, config: SesConfig, toAscii: ToAscii): (r: Result<seq<Header>, EncodeError>)
    ensures r.Ok? <==> CcHeader(email.cc, toAscii).Ok? && ReplyToHeader(email.replyTo, toAscii).Ok?
    ensures r.Ok? ==>
      (r.value == ArnHeaders(config, email.sendingDomain) + ImportanceHeader(email.importance)
                  + CcHeader(email.cc, toAscii).value + ReplyToHeader(email.replyTo, toAscii).value)
  {
    var cc :- CcHeader(email.cc, toAscii);
    var reply :- ReplyToHeader(email.replyTo, toAscii);
    Ok(ArnHeaders(config, email.sendingDomain) + ImportanceHeader(email.importance) + cc + reply)
  }

  /** The optional header names, in order: the two ARN headers when an owner account
      is configured, importance when given, CC when there are CC addresses, and
      reply-to when given. */
  lemma OptionalHeaderNames(email: Email, config: SesConfig, toAscii: ToAscii)
    requires OptionalHeaders(email, config, toAscii).Ok?
    ensures Names(OptionalHeaders(email, config, toAscii).value) ==
      (if Truthy(config.ownerAccount) then ["X-SES-SOURCE-ARN", "X-SES-FROM-ARN"] else [])
      + (if Truthy(email.importance) then ["importance"] else [])
      + (if CcAddresses(email.cc) != [] then ["CC"] else [])
      + (if Truthy(email.replyTo) then ["reply-to"] else [])
  {
    var arn := ArnHeaders(config, email.sendingDomain);
    var importance := ImportanceHeader(email.importance);
    var cc := CcHeader(email.cc, toAscii).value;
    var reply := ReplyToHeader(email.replyTo, toAscii).value;
    assert OptionalHeaders(email, config, toAscii).value == arn + importance + cc + reply;
    NamesAppend(arn, importance);
    NamesAppend(arn + importance, cc);
    NamesAppend(arn + importance + cc, reply);
    assert Names(importance) == (if Truthy(email.importance) then ["importance"] else []);
    assert Names(cc) == (if CcAddresses(email.cc) != [] then ["CC"] else []);
    assert Names(reply) == (if Truthy(email.replyTo) then ["reply-to"] else []);
  }

  /** The message handed to SES, or the encoding error raised while building it. */
  function BuildMessage(email: Email, config: SesConfig, codecs: Codecs): (r: Result<MimeMessage, EncodeError>)
    ensures r.Ok? <==>
      EncodeAll(AsList(email.to), codecs.toAscii).Ok? && OptionalHeaders(email, config, codecs.toAscii).Ok?
    ensures r.Ok? ==> r.value.subtype == Subtype(email.htmlBody) && r.value.parts == Parts(email)
    ensures r.Ok? ==>
      (r.value.headers ==
         [Header("Subject", email.subject),
          Header("From", EncodedSource(email.source, codecs)),
          Header("To", Join(EncodeAll(AsList(email.to), codecs.toAscii).value, ","))]
         + OptionalHeaders(email, config, codecs.toAscii).value)
  {
    var to :- EncodeAll(AsList(email.to), codecs.toAscii);
    var optional :- OptionalHeaders(email, config, codecs.toAscii);
    var headers := [
      Header("Subject", email.subject),
      Header("From", EncodedSource(email.source, codecs)),
      Header("To", Join(to, ","))] + optional;
    Ok(MimeMessage(Subtype(email.htmlBody), headers, Parts(email)))
  }

  /** What `send_raw_email` receives: the normalised source and the message. */
  datatype RawEmail = RawEmail(source: string, message: MimeMessage)

  /** What `send_raw_email` does: return a MessageId, raise a botocore ClientError
      carrying an error code and message, or raise anything else. */
  datatype SesReply = Accepted(messageId: string) | ClientError(code: string, message: string) | OtherFailure

  /** The cause wrapped in an AwsSesClientException. */
  datatype SesFailure = BuildFailed(error: EncodeError) | ClientFailed(code: string, message: string) | CallFailed

  datatype SesError =
    | InvalidEmail(message: string)               // InvalidEmailError
    | AwsSesClientException(cause: SesFailure)
    | IndexError                                   // `to_addresses[0]` on an empty list

  datatype SesSent = SesSent(result: Result<string, SesError>, sent: Option<RawEmail>, metrics: seq<Metric>)

  const ErrorCounter := Incr("clients.ses.error")
  const SuccessCounter := Incr("clients.ses.success")
  const RequestTimer := Timing("clients.ses.request-time")
  const InvalidParameterValue := "InvalidParameterValue"

  /** The InvalidEmailError text naming the first recipient and SES's message. */
  function InvalidEmailMessage(recipient: string, message: string): (r: string)
    ensures |r| > 8 + |recipient| && r[..8 + |recipient|] == "email: \"" + recipient
  {
    "email: \"" + recipient + "\" message: \"" + message + "\""
  }

  /** The result and counters of one SES call, by what the call did. */
  datatype Outcome = Outcome(result: Result<string, SesError>, metrics: seq<Metric>)

  /** The exception handlers and the `else` branch of `send_email`. */
  function Classify(reply: SesReply, to: seq<string>): (r: Outcome)
    ensures r.result.Ok? <==> reply.Accepted?
    ensures r.result.Ok? ==> r.result.value == reply.messageId
    ensures SuccessCounter in r.metrics <==> reply.Accepted?
    ensures reply.Accepted? <==> multiset(r.metrics)[ErrorCounter] == 0
    ensures multiset(r.metrics)[ErrorCounter] <= 2
    ensures multiset(r.metrics)[ErrorCounter] == 2 <==>
      reply.ClientError? && reply.code != InvalidParameterValue
    ensures r.result.Err? && r.result.error.InvalidEmail? <==>
      reply.ClientError? && reply.code == InvalidParameterValue && to != []
    ensures r.result.Err? && r.result.error.InvalidEmail? ==>
      r.result.error.message == InvalidEmailMessage(to[0], reply.message)
    ensures r.result == Err(IndexError) <==>
      reply.ClientError? && reply.code == InvalidParameterValue && to == []
    ensures reply == OtherFailure ==> r.result == Err(AwsSesClientException(CallFailed))
    ensures reply.ClientError? && reply.code != InvalidParameterValue ==>
      r.result == Err(AwsSesClientException(ClientFailed(reply.code, reply.message)))
  {
    match reply
    case Accepted(id) => Outcome(Ok(id), [RequestTimer, SuccessCounter])
    case ClientError(code, text) =>
      if code == InvalidParameterValue then
        if |to| == 0 then Outcome(Err(IndexError), [ErrorCounter])
        else Outcome(Err(InvalidEmail(InvalidEmailMessage(to[0], text))), [ErrorCounter])
      else Outcome(Err(AwsSesClientException(ClientFailed(code, text))), [ErrorCounter, ErrorCounter])
    case OtherFailure => Outcome(Err(AwsSesClientException(CallFailed)), [ErrorCounter])
  }

  /** `send_email`: build the message, hand it to SES with the normalised source, and
      classify the reply; a failure while building is wrapped like any other error. */
  function SendEmail(email: Email, config: SesConfig, codecs: Codecs, sendRaw: RawEmail -> SesReply)
    : (r: SesSent)
    ensures r.sent.Some? <==> BuildMessage(email, config, codecs).Ok?
    ensures r.sent.Some? ==>
      && r.sent.value == RawEmail(codecs.normalize(email.source), BuildMessage(email, config, codecs).value)
      && Outcome(r.result, r.metrics) == Classify(sendRaw(r.sent.value), AsList(email.to))
    ensures r.sent.None? ==>
      r == SesSent(Err(AwsSesClientException(BuildFailed(BuildMessage(email, config, codecs).error))), None,
                   [ErrorCounter])
  {
    match BuildMessage(email, config, codecs)
    case Err(e) => SesSent(Err(AwsSesClientException(BuildFailed(e))), None, [ErrorCounter])
    case Ok(message) =>
      var raw := RawEmail(codecs.normalize(email.source), message);
      var outcome := Classify(sendRaw(raw), AsList(email.to));
      SesSent(outcome.result, Some(raw), outcome.metrics)
  }
}
