/** The request checks and the report assembly of the usage endpoints
    (app/platform_stats/rest.py): the organisation-id GUID check, the date-range
    check, and the merge of per-service sms costs, letter costs and letter line
    items into one sorted list. Date parsing, the financial-year function and the
    billing queries are parameters; costs are reals. */
module UsageReport {

  import opened Wrappers
  import opened Seqs
  import opened Text

  // ---------------------------------------------------------------- GUID check

  predicate IsHex(c: char)
  {
    ('0' <= c <= '9') || ('a' <= c <= 'f') || ('A' <= c <= 'F')
  }

  predicate AllHex(s: string)
  {
    forall k :: 0 <= k < |s| ==> IsHex(s[k])
  }

  /** Positions of the hyphens in an 8-4-4-4-12 GUID. */
  predicate IsHyphenPosition(k: int)
  {
    k == 8 || k == 13 || k == 18 || k == 23
  }

  /** `[0-9a-fA-F]{8}-([0-9a-fA-F]{4}-){3}[0-9a-fA-F]{12}`. */
  predicate IsGuidCore(s: string)
  {
    && |s| == 36
    && forall k :: 0 <= k < 36 ==> (if IsHyphenPosition(k) then s[k] == '-' else IsHex(s[k]))
  }

  /** The core with an optional `{` before it and an optional `}` after it. */
  predicate IsBracedGuid(t: string)
  {
    || IsGuidCore(t)
    || (|t| > 0 && t[0] == '{' && IsGuidCore(t[1..]))
    || (|t| > 0 && t[|t| - 1] == '}' && IsGuidCore(t[..|t| - 1]))
    || (|t| > 1 && t[0] == '{' && t[|t| - 1] == '}' && IsGuidCore(t[1..|t| - 1]))
  }

  /** `re.search` of the anchored pattern: `$` also matches just before a final
      newline, so one trailing "\n" is allowed. */
  predicate MatchesGuidPattern(s: string)
  {
    IsBracedGuid(s) || (|s| > 0 && s[|s| - 1] == '\n' && IsBracedGuid(s[..|s| - 1]))
  }

  /** The 32 hex digits laid out 8-4-4-4-12. */
  function GuidCore(hex: string): (s: string)
    requires |hex| == 32
  {
    hex[..8] + "-" + hex[8..12] + "-" + hex[12..16] + "-" + hex[16..20] + "-" + hex[20..]
  }

  /** A GUID text as written by a client: the core, optionally braced on either side,
      optionally followed by a newline. */
  function GuidText(hex: string, open: bool, close: bool, newline: bool): (s: string)
    requires |hex| == 32
  {
    (if open then "{" else "") + GuidCore(hex) + (if close then "}" else "") + (if newline then "\n" else "")
  }

  lemma GuidCoreShape(hex: string)
    requires |hex| == 32 && AllHex(hex)
    ensures IsGuidCore(GuidCore(hex))
  {
    var s := GuidCore(hex);
    forall k | 0 <= k < 36
      ensures if IsHyphenPosition(k) then s[k] == '-' else IsHex(s[k])
    {
      if k < 8 { assert s[k] == hex[k]; }
      else if 8 < k < 13 { assert s[k] == hex[k - 1]; }
      else if 13 < k < 18 { assert s[k] == hex[k - 2]; }
      else if 18 < k < 23 { assert s[k] == hex[k - 3]; }
      else if 23 < k { assert s[k] == hex[k - 4]; }
    }
  }

  /** Every GUID text built from 32 hex digits passes the pattern. */
  lemma GuidTextMatches(hex: string, open: bool, close: bool, newline: bool)
    requires |hex| == 32 && AllHex(hex)
    ensures MatchesGuidPattern(GuidText(hex, open, close, newline))
  {
    GuidCoreShape(hex);
    var core := GuidCore(hex);
    var t := (if open then "{" else "") + core + (if close then "}" else "");
    var s := GuidText(hex, open, close, newline);
    assert s == t + (if newline then "\n" else "");
    if open && close {
      assert t[1..|t| - 1] == core;
    } else if open {
      assert t[1..] == core;
    } else if close {
      assert t[..|t| - 1] == core;
    }
    assert IsBracedGuid(t);
    if newline {
      assert s[..|s| - 1] == t;
    }
  }

  /** The hex digits of a GUID core, hyphens dropped. */
  function CoreDigits(s: string): (hex: string)
    requires IsGuidCore(s)
    ensures |hex| == 32 && AllHex(hex) && GuidCore(hex) == s
  {
    var hex := s[..8] + s[9..13] + s[14..18] + s[19..23] + s[24..];
    assert forall k :: 0 <= k < 8 ==> hex[k] == s[k];
    assert forall k :: 8 <= k < 12 ==> hex[k] == s[k + 1];
    assert forall k :: 12 <= k < 16 ==> hex[k] == s[k + 2];
    assert forall k :: 16 <= k < 20 ==> hex[k] == s[k + 3];
    assert forall k :: 20 <= k < 32 ==> hex[k] == s[k + 4];
    assert hex[..8] == s[..8];
    assert hex[8..12] == s[9..13];
    assert hex[12..16] == s[14..18];
    assert hex[16..20] == s[19..23];
    assert hex[20..] == s[24..];
    assert s == s[..8] + "-" + s[9..13] + "-" + s[14..18] + "-" + s[19..23] + "-" + s[24..];
    hex
  }

  /** Every string the pattern accepts is a GUID text built from 32 hex digits. */
  lemma MatchIsGuidText(s: string)
    requires MatchesGuidPattern(s)
    ensures exists hex, open, close, newline ::
      |hex| == 32 && AllHex(hex) && s == GuidText(hex, open, close, newline)
  {
    if IsBracedGuid(s) {
      var hex, open, close := BracedIsText(s);
      assert s == GuidText(hex, open, close, false);
    } else {
      var t := s[..|s| - 1];
      var hex, open, close := BracedIsText(t);
      assert s == t + "\n";
      assert GuidText(hex, open, close, true) == GuidText(hex, open, close, false) + "\n";
    }
  }

  /** The digits and braces of a braced GUID. */
  lemma BracedIsText(t: string) returns (hex: string, open: bool, close: bool)
    requires IsBracedGuid(t)
    ensures |hex| == 32 && AllHex(hex) && t == GuidText(hex, open, close, false)
  {
    if IsGuidCore(t) {
      hex, open, close := CoreDigits(t), false, false;
    } else if |t| > 0 && t[0] == '{' && IsGuidCore(t[1..]) {
      hex, open, close := CoreDigits(t[1..]), true, false;
      assert t == "{" + t[1..];
    } else if |t| > 0 && t[|t| - 1] == '}' && IsGuidCore(t[..|t| - 1]) {
      hex, open, close := CoreDigits(t[..|t| - 1]), false, true;
      assert t == t[..|t| - 1] + "}";
    } else {
      hex, open, close := CoreDigits(t[1..|t| - 1]), true, true;
      assert t == "{" + t[1..|t| - 1] + "}";
    }
  }

  datatype BadRequest = BadRequest(message: string)

  const ChooseOrganisation := "You must choose an organisation from the list"

  /** `isValidGUID`: None, the empty string and pattern matches pass through; anything
      else is a 400. */
  function IsValidGuid(organisationId: Option<string>): (r: Result<Option<string>, BadRequest>)
    ensures r.Ok? <==>
      organisationId.None? || organisationId.value == "" || MatchesGuidPattern(organisationId.value)
    ensures r.Ok? ==> r.value == organisationId
    ensures r.Err? ==> r.error == BadRequest(ChooseOrganisation)
  {
    if organisationId.None? || organisationId.value == "" || MatchesGuidPattern(organisationId.value) then
      Ok(organisationId)
    else Err(BadRequest(ChooseOrganisation))
  }

  /** A missing `organisation_id` reaches the check as the string "None" and fails. */
  lemma MissingOrganisationRejected()
    ensures IsValidGuid(Some("None")) == Err(BadRequest(ChooseOrganisation))
  {
    assert !IsBracedGuid("None");
    assert "None"[3] != '\n';
  }

  // ---------------------------------------------------------------- date range

  /** A calendar date as a day number; `strptime` yields None for text that is not
      `YYYY-MM-DD`. */
  type Day = int

  datatype RangeError =
    | InvalidRange(message: string)   // InvalidRequest, status 400
    | TypeError                       // `strptime(None, ...)`: not caught, so not a 400

  const BadDateFormat := "Input must be a date in the format: YYYY-MM-DD"
  const StartAfterEnd := "Start date must be before end date"
  const DifferentYears := "Date must be in a single financial year."

  function ParseArg(arg: Option<string>, parse: string -> Option<Day>): Result<Option<Day>, RangeError>
  {
    if arg.None? then Err(TypeError) else Ok(parse(arg.value))
  }

  /** `validate_date_range_is_within_a_financial_year`. */
  function ValidateDateRange(start: Option<string>, end: Option<string>, parse: string -> Option<Day>,
                             financialYear: Day -> int): (r: Result<(Day, Day), RangeError>)
    ensures r.Ok? <==>
      && start.Some? && end.Some? && parse(start.value).Some? && parse(end.value).Some?
      && parse(start.value).value <= parse(end.value).value
      && financialYear(parse(start.value).value) == financialYear(parse(end.value).value)
    ensures r.Ok? ==> r.value == (parse(start.value).value, parse(end.value).value)
    ensures r == Err(TypeError) <==> start.None? || (parse(start.value).Some? && end.None?)
    ensures r == Err(InvalidRange(BadDateFormat)) <==>
      start.Some? && (parse(start.value).None? || (end.Some? && parse(end.value).None?))
    ensures r == Err(InvalidRange(StartAfterEnd)) <==>
      && start.Some? && end.Some? && parse(start.value).Some? && parse(end.value).Some?
      && parse(end.value).value < parse(start.value).value
    ensures r == Err(InvalidRange(DifferentYears)) <==>
      && start.Some? && end.Some? && parse(start.value).Some? && parse(end.value).Some?
      && parse(start.value).value <= parse(end.value).value
      && financialYear(parse(start.value).value) != financialYear(parse(end.value).value)
  {
    var startDay :- ParseArg(start, parse);
    if startDay.None? then Err(InvalidRange(BadDateFormat))
    else
      var endDay :- ParseArg(end, parse);
      if endDay.None? then Err(InvalidRange(BadDateFormat))
      else if endDay.value < startDay.value then Err(InvalidRange(StartAfterEnd))
      else if financialYear(startDay.value) != financialYear(endDay.value) then Err(InvalidRange(DifferentYears))
      else Ok((startDay.value, endDay.value))
  }

  // ---------------------------------------------------------------- usage merge

  datatype SmsCost = SmsCost(
    organisationId: Option<string>,
    organisationName: Option<string>,
    serviceId: string,
    serviceName: string,
    smsCost: real,
    chargeableBillableSms: int)

  datatype LetterCost = LetterCost(
    organisationId: Option<string>,
    organisationName: Option<string>,
    serviceId: string,
    serviceName: string,
    letterCost: real)

  datatype LetterLine = LetterLine(serviceId: string, lettersSent: int, postage: string, letterRate: real)

  datatype UsageEntry = UsageEntry(
    organisationId: string,
    organisationName: string,
    serviceId: string,
    serviceName: string,
    smsCost: real,
    smsFragments: int,
    letterCost: real,
    letterBreakdown: string)

  /** Python's `int()` of a float: truncation toward zero. */
  function Trunc(x: real): (n: int)
    ensures x >= 0.0 ==> n as real <= x < n as real + 1.0
    ensures x < 0.0 ==> n as real - 1.0 < x <= n as real
  {
    if x >= 0.0 then x.Floor else -((-x).Floor)
  }

  function DigitString(n: nat): (s: string)
    ensures |s| > 0
  {
    var d := ['0' + (n % 10) as char];
    if n < 10 then d else DigitString(n / 10) + d
  }

  /** `str()` of an int. */
  function IntString(n: int): string
  {
    if n < 0 then "-" + DigitString(-n) else DigitString(n)
  }

  /** One breakdown line: "<letters> <postage> class letters at <pence>p". */
  function LineText(line: LetterLine): string
  {
    IntString(line.lettersSent) + " " + line.postage + " class letters at " +
    IntString(Trunc(line.letterRate * 100.0)) + "p"
  }

  function Ids(c: seq<UsageEntry>): set<string>
  {
    set e | e in c :: e.serviceId
  }

  /** The merged dict: one entry per service. */
  predicate UniqueIds(c: seq<UsageEntry>)
  {
    forall i, j :: 0 <= i < j < |c| ==> c[i].serviceId != c[j].serviceId
  }

  function HasService(serviceId: string): UsageEntry -> bool
  {
    (e: UsageEntry) => e.serviceId == serviceId
  }

  function SmsEntry(s: SmsCost): UsageEntry
  {
    UsageEntry(if Truthy(s.organisationId) then s.organisationId.value else "", s.organisationName.GetOr(""),
               s.serviceId, s.serviceName, s.smsCost, s.chargeableBillableSms, 0.0, "")
  }

  function LetterEntry(l: LetterCost): UsageEntry
  {
    UsageEntry(if Truthy(l.organisationId) then l.organisationId.value else "", l.organisationName.GetOr(""),
               l.serviceId, l.serviceName, 0.0, 0, l.letterCost, "")
  }

  lemma IdsOfAppend(c: seq<UsageEntry>, e: UsageEntry)
    ensures Ids(c + [e]) == Ids(c) + {e.serviceId}
  {
    assert forall x :: x in c + [e] <==> x in c || x == e;
  }

  lemma IdsOfUpdate(c: seq<UsageEntry>, i: int, e: UsageEntry)
    requires 0 <= i < |c| && c[i].serviceId == e.serviceId
    ensures Ids(c[i := e]) == Ids(c)
  {
    forall x | x in Ids(c) ensures x in Ids(c[i := e]) {
      var k :| 0 <= k < |c| && c[k].serviceId == x;
      assert c[i := e][k].serviceId == x;
    }
  }

  /** The entry a merged list holds for a service (the only one when ids are unique). */
  ghost function EntryOf(c: seq<UsageEntry>, serviceId: string): (e: UsageEntry)
    requires serviceId in Ids(c)
    ensures e in c && e.serviceId == serviceId
  {
    var e :| e in c && e.serviceId == serviceId; e
  }

  lemma EntryOfUnique(c: seq<UsageEntry>, e: UsageEntry)
    requires UniqueIds(c) && e in c
    ensures EntryOf(c, e.serviceId) == e
  {
    var k :| 0 <= k < |c| && c[k] == e;
    var k' :| 0 <= k' < |c| && c[k'] == EntryOf(c, e.serviceId);
  }

  /** No entry has letter line items yet. */
  predicate NoBreakdown(c: seq<UsageEntry>)
  {
    forall i :: 0 <= i < |c| ==> c[i].letterBreakdown == ""
  }

  /** `combined[s.service_id] = entry`: a new entry, or the service's entry replaced in
      its place. */
  function AddSms(c: seq<UsageEntry>, s: SmsCost): (r: seq<UsageEntry>)
    ensures Ids(r) == Ids(c) + {s.serviceId}
    ensures UniqueIds(c) ==> UniqueIds(r)
    ensures NoBreakdown(c) ==> NoBreakdown(r)
    ensures s.serviceId !in Ids(c) ==> r == c + [SmsEntry(s)]
    ensures UniqueIds(c) && s.serviceId in Ids(c) ==>
      |r| == |c| && forall i :: 0 <= i < |c| ==> r[i] == (if c[i].serviceId == s.serviceId then SmsEntry(s) else c[i])
    ensures UniqueIds(c) ==> forall e :: e in r ==> if e.serviceId == s.serviceId then e == SmsEntry(s) else e in c
  {
    match FirstIndex(c, HasService(s.serviceId))
    case Some(i) =>
      IdsOfUpdate(c, i, SmsEntry(s));
      c[i := SmsEntry(s)]
    case None =>
      IdsOfAppend(c, SmsEntry(s));
      c + [SmsEntry(s)]
  }

  /** The letter-cost step: update the cost of an existing entry, or add a letters-only
      entry with no sms cost or fragments. */
  function AddLetterCost(c: seq<UsageEntry>, l: LetterCost): (r: seq<UsageEntry>)
    ensures Ids(r) == Ids(c) + {l.serviceId}
    ensures UniqueIds(c) ==> UniqueIds(r)
    ensures NoBreakdown(c) ==> NoBreakdown(r)
    ensures l.serviceId !in Ids(c) ==> r == c + [LetterEntry(l)]
    ensures UniqueIds(c) && l.serviceId in Ids(c) ==>
      |r| == |c| && forall i :: 0 <= i < |c| ==>
        r[i] == (if c[i].serviceId == l.serviceId then c[i].(letterCost := l.letterCost) else c[i])
    ensures UniqueIds(c) ==> forall e :: e in r ==>
      if e.serviceId != l.serviceId then e in c
      else if l.serviceId in Ids(c) then e == EntryOf(c, l.serviceId).(letterCost := l.letterCost)
      else e == LetterEntry(l)
  {
    match FirstIndex(c, HasService(l.serviceId))
    case Some(i) =>
      IdsOfUpdate(c, i, c[i].(letterCost := l.letterCost));
      c[i := c[i].(letterCost := l.letterCost)]
    case None =>
      IdsOfAppend(c, LetterEntry(l));
      c + [LetterEntry(l)]
  }

  datatype KeyError = KeyError(serviceId: string)

  /** `combined[service_id]['letter_breakdown'] += breakdown + '\n'`; a line for a
      service with no entry raises. */
  function AddBreakdown(c: seq<UsageEntry>, line: LetterLine): (r: Result<seq<UsageEntry>, KeyError>)
    ensures r.Err? <==> line.serviceId !in Ids(c)
    ensures r.Err? ==> r.error == KeyError(line.serviceId)
    ensures r.Ok? ==> Ids(r.value) == Ids(c) && (UniqueIds(c) ==> UniqueIds(r.value))
    ensures r.Ok? && UniqueIds(c) ==>
      |r.value| == |c| && forall i :: 0 <= i < |c| ==>
        r.value[i] == (if c[i].serviceId == line.serviceId
                       then c[i].(letterBreakdown := c[i].letterBreakdown + LineText(line) + "\n")
                       else c[i])
  {
    match FirstIndex(c, HasService(line.serviceId))
    case Some(i) =>
      var e := c[i].(letterBreakdown := c[i].letterBreakdown + LineText(line) + "\n");
      IdsOfUpdate(c, i, e);
      Ok(c[i := e])
    case None => Err(KeyError(line.serviceId))
  }

  function SmsIds(sms: seq<SmsCost>): set<string>
  {
    set s | s in sms :: s.serviceId
  }

  function LetterIds(letters: seq<LetterCost>): set<string>
  {
    set l | l in letters :: l.serviceId
  }

  /** The last sms row of a service: the one whose entry survives the sms loop. */
  function LastSms(sms: seq<SmsCost>, serviceId: string): (r: Option<SmsCost>)
    ensures r.Some? <==> serviceId in SmsIds(sms)
    ensures r.Some? ==> r.value in sms && r.value.serviceId == serviceId
  {
    if |sms| == 0 then None
    else
      var prefix := sms[..|sms| - 1];
      assert forall s :: s in sms <==> s in prefix || s == sms[|sms| - 1];
      if sms[|sms| - 1].serviceId == serviceId then Some(sms[|sms| - 1]) else LastSms(prefix, serviceId)
  }

  /** The first letter-cost row of a service: the one that creates its entry when it
      has no sms row. */
  function FirstLetter(letters: seq<LetterCost>, serviceId: string): (r: Option<LetterCost>)
    ensures r.Some? <==> serviceId in LetterIds(letters)
    ensures r.Some? ==> r.value in letters && r.value.serviceId == serviceId
  {
    if |letters| == 0 then None
    else
      var prefix := letters[..|letters| - 1];
      assert forall l :: l in letters <==> l in prefix || l == letters[|letters| - 1];
      match FirstLetter(prefix, serviceId)
      case Some(l) => Some(l)
      case None => if letters[|letters| - 1].serviceId == serviceId then Some(letters[|letters| - 1]) else None
  }

  /** The last letter-cost row of a service: the cost the report shows. */
  function LastLetter(letters: seq<LetterCost>, serviceId: string): (r: Option<LetterCost>)
    ensures r.Some? <==> serviceId in LetterIds(letters)
    ensures r.Some? ==> r.value in letters && r.value.serviceId == serviceId
  {
    if |letters| == 0 then None
    else
      var prefix := letters[..|letters| - 1];
      assert forall l :: l in letters <==> l in prefix || l == letters[|letters| - 1];
      if letters[|letters| - 1].serviceId == serviceId then Some(letters[|letters| - 1])
      else LastLetter(prefix, serviceId)
  }

  /** A service's entry after the sms loop has run over `c`. */
  ghost function AfterSms(c: seq<UsageEntry>, sms: seq<SmsCost>, serviceId: string): UsageEntry
    requires serviceId in Ids(c) + SmsIds(sms)
  {
    match LastSms(sms, serviceId)
    case Some(s) => SmsEntry(s)
    case None => EntryOf(c, serviceId)
  }

  /** A service's entry after the letter-cost loop has run over `c`. */
  ghost function AfterLetters(c: seq<UsageEntry>, letters: seq<LetterCost>, serviceId: string): UsageEntry
    requires serviceId in Ids(c) + LetterIds(letters)
  {
    var base := if serviceId in Ids(c) then EntryOf(c, serviceId) else LetterEntry(FirstLetter(letters, serviceId).value);
    match LastLetter(letters, serviceId)
    case Some(l) => base.(letterCost := l.letterCost)
    case None => base
  }

  /** The sms loop, in row order. */
  function AddAllSms(c: seq<UsageEntry>, sms: seq<SmsCost>): (r: seq<UsageEntry>)
    ensures Ids(r) == Ids(c) + SmsIds(sms)
    ensures UniqueIds(c) ==> UniqueIds(r)
    ensures NoBreakdown(c) ==> NoBreakdown(r)
    ensures UniqueIds(c) ==> forall e :: e in r ==>
      e.serviceId in Ids(c) + SmsIds(sms) && e == AfterSms(c, sms, e.serviceId)
  {
    if |sms| == 0 then
      assert forall e :: e in c ==> e.serviceId in Ids(c);
      EntryOfAll(c);
      c
    else
      var prefix := sms[..|sms| - 1];
      assert SmsIds(sms) == SmsIds(prefix) + {sms[|sms| - 1].serviceId} by {
        assert forall s :: s in sms <==> s in prefix || s == sms[|sms| - 1];
      }
      var partial := AddAllSms(c, prefix);
      var r := AddSms(partial, sms[|sms| - 1]);
      SmsStep(c, sms, partial, r);
      r
  }

  lemma EntryOfAll(c: seq<UsageEntry>)
    ensures UniqueIds(c) ==> forall e :: e in c ==> e.serviceId in Ids(c) && EntryOf(c, e.serviceId) == e
  {
    if UniqueIds(c) {
      forall e | e in c ensures e.serviceId in Ids(c) && EntryOf(c, e.serviceId) == e {
        EntryOfUnique(c, e);
      }
    }
  }

  lemma SmsStep(c: seq<UsageEntry>, sms: seq<SmsCost>, partial: seq<UsageEntry>, r: seq<UsageEntry>)
    requires |sms| > 0
    requires SmsIds(sms) == SmsIds(sms[..|sms| - 1]) + {sms[|sms| - 1].serviceId}
    requires UniqueIds(c) ==> UniqueIds(partial) && forall e :: e in partial ==>
      e.serviceId in Ids(c) + SmsIds(sms[..|sms| - 1]) && e == AfterSms(c, sms[..|sms| - 1], e.serviceId)
    requires r == AddSms(partial, sms[|sms| - 1])
    ensures UniqueIds(c) ==> forall e :: e in r ==>
      e.serviceId in Ids(c) + SmsIds(sms) && e == AfterSms(c, sms, e.serviceId)
  {
    if UniqueIds(c) {
      var last := sms[|sms| - 1];
      forall e | e in r ensures e.serviceId in Ids(c) + SmsIds(sms) && e == AfterSms(c, sms, e.serviceId) {
        if e.serviceId != last.serviceId {
          assert e in partial;
        }
      }
    }
  }

  /** The letter-cost loop, in row order. */
  function AddAllLetterCosts(c: seq<UsageEntry>, letters: seq<LetterCost>): (r: seq<UsageEntry>)
    ensures Ids(r) == Ids(c) + LetterIds(letters)
    ensures UniqueIds(c) ==> UniqueIds(r)
    ensures NoBreakdown(c) ==> NoBreakdown(r)
    ensures UniqueIds(c) ==> forall e :: e in r ==>
      e.serviceId in Ids(c) + LetterIds(letters) && e == AfterLetters(c, letters, e.serviceId)
  {
    if |letters| == 0 then
      EntryOfAll(c);
      c
    else
      var prefix := letters[..|letters| - 1];
      assert LetterIds(letters) == LetterIds(prefix) + {letters[|letters| - 1].serviceId} by {
        assert forall l :: l in letters <==> l in prefix || l == letters[|letters| - 1];
      }
      var partial := AddAllLetterCosts(c, prefix);
      var r := AddLetterCost(partial, letters[|letters| - 1]);
      LetterStep(c, letters, partial, r);
      r
  }

  lemma LetterStep(c: seq<UsageEntry>, letters: seq<LetterCost>, partial: seq<UsageEntry>, r: seq<UsageEntry>)
    requires |letters| > 0
    requires LetterIds(letters) == LetterIds(letters[..|letters| - 1]) + {letters[|letters| - 1].serviceId}
    requires Ids(partial) == Ids(c) + LetterIds(letters[..|letters| - 1])
    requires UniqueIds(c) ==> UniqueIds(partial) && forall e :: e in partial ==>
      e.serviceId in Ids(c) + LetterIds(letters[..|letters| - 1]) &&
      e == AfterLetters(c, letters[..|letters| - 1], e.serviceId)
    requires r == AddLetterCost(partial, letters[|letters| - 1])
    ensures UniqueIds(c) ==> forall e :: e in r ==>
      e.serviceId in Ids(c) + LetterIds(letters) && e == AfterLetters(c, letters, e.serviceId)
  {
    if UniqueIds(c) {
      var last := letters[|letters| - 1];
      forall e | e in r
        ensures e.serviceId in Ids(c) + LetterIds(letters) && e == AfterLetters(c, letters, e.serviceId)
      {
        if e.serviceId != last.serviceId {
          assert e in partial;
        } else if last.serviceId in Ids(partial) {
          var before := EntryOf(partial, last.serviceId);
          assert before == AfterLetters(c, letters[..|letters| - 1], last.serviceId);
        }
      }
    }
  }

  /** The breakdown a service accumulates: its lines' texts, each with a newline, in
      the order the line items arrive. */
  function BreakdownFor(lines: seq<LetterLine>, serviceId: string): string
  {
    if |lines| == 0 then ""
    else
      var last := lines[|lines| - 1];
      BreakdownFor(lines[..|lines| - 1], serviceId) + (if last.serviceId == serviceId then LineText(last) + "\n" else "")
  }

  /** The breakdown loop: each entry's breakdown grows by exactly its own lines. */
  function AddAllBreakdowns(c: seq<UsageEntry>, lines: seq<LetterLine>): (r: Result<seq<UsageEntry>, KeyError>)
    requires UniqueIds(c)
    ensures r.Ok? <==> AllKnown(lines, Ids(c))
    ensures r.Ok? ==> UniqueIds(r.value) && Ids(r.value) == Ids(c) && |r.value| == |c|
    ensures r.Ok? ==> forall i :: 0 <= i < |c| ==> r.value[i] == WithBreakdown(c[i], lines)
  {
    if |lines| == 0 then
      assert forall i :: 0 <= i < |c| ==> c[i] == WithBreakdown(c[i], lines);
      Ok(c)
    else
      var prefix := lines[..|lines| - 1];
      var last := lines[|lines| - 1];
      AllKnownStep(lines, Ids(c));
      match AddAllBreakdowns(c, prefix)
      case Err(e) => Err(e)
      case Ok(partial) =>
        var r := AddBreakdown(partial, last);
        if r.Ok? then
          BreakdownStep(c, partial, lines, r.value);
          r
        else r
  }

  /** Every line item names a service in `ids`. */
  predicate AllKnown(lines: seq<LetterLine>, ids: set<string>)
  {
    forall k :: 0 <= k < |lines| ==> lines[k].serviceId in ids
  }

  lemma AllKnownStep(lines: seq<LetterLine>, ids: set<string>)
    requires |lines| > 0
    ensures AllKnown(lines, ids) <==>
      AllKnown(lines[..|lines| - 1], ids) && lines[|lines| - 1].serviceId in ids
  {
    var prefix := lines[..|lines| - 1];
    assert forall k :: 0 <= k < |prefix| ==> prefix[k] == lines[k];
  }

  /** An entry with its breakdown extended by the lines for its service. */
  function WithBreakdown(e: UsageEntry, lines: seq<LetterLine>): UsageEntry
  {
    e.(letterBreakdown := e.letterBreakdown + BreakdownFor(lines, e.serviceId))
  }

  lemma BreakdownStep(c: seq<UsageEntry>, partial: seq<UsageEntry>, lines: seq<LetterLine>, next: seq<UsageEntry>)
    requires |lines| > 0 && UniqueIds(partial) && |partial| == |c|
    requires forall i :: 0 <= i < |c| ==> partial[i] == WithBreakdown(c[i], lines[..|lines| - 1])
    requires |next| == |partial|
    requires forall i :: 0 <= i < |partial| ==>
      next[i] == (if partial[i].serviceId == lines[|lines| - 1].serviceId
                  then partial[i].(letterBreakdown := partial[i].letterBreakdown + LineText(lines[|lines| - 1]) + "\n")
                  else partial[i])
    ensures forall i :: 0 <= i < |c| ==> next[i] == WithBreakdown(c[i], lines)
  {
    forall i | 0 <= i < |c| ensures next[i] == WithBreakdown(c[i], lines) {
      BreakdownEntryStep(c[i], lines, partial[i], next[i]);
    }
  }

  lemma BreakdownEntryStep(e: UsageEntry, lines: seq<LetterLine>, before: UsageEntry, after: UsageEntry)
    requires |lines| > 0 && before == WithBreakdown(e, lines[..|lines| - 1])
    requires after == (if before.serviceId == lines[|lines| - 1].serviceId
                       then before.(letterBreakdown := before.letterBreakdown + LineText(lines[|lines| - 1]) + "\n")
                       else before)
    ensures after == WithBreakdown(e, lines)
  {
    var last := lines[|lines| - 1];
    var earlier := BreakdownFor(lines[..|lines| - 1], e.serviceId);
    if e.serviceId == last.serviceId {
      assert BreakdownFor(lines, e.serviceId) == earlier + (LineText(last) + "\n");
      assert e.letterBreakdown + earlier + LineText(last) + "\n" == e.letterBreakdown + BreakdownFor(lines, e.serviceId);
    } else {
      assert BreakdownFor(lines, e.serviceId) == earlier + "";
    }
  }

  /** Blank organisation names last, then by organisation name, then by service name:
      the order of the tuple key `(name == '', name, service_name)`. */
  predicate UsageLeq(a: UsageEntry, b: UsageEntry)
  {
    if (a.organisationName == "") != (b.organisationName == "") then a.organisationName != ""
    else if a.organisationName != b.organisationName then StrLeq(a.organisationName, b.organisationName)
    else StrLeq(a.serviceName, b.serviceName)
  }

  lemma UsageOrder()
    ensures Total(UsageLeq) && Transitive(UsageLeq)
  {
    forall a: UsageEntry, b: UsageEntry ensures UsageLeq(a, b) || UsageLeq(b, a) {
      StrLeqTotal(a.organisationName, b.organisationName);
      StrLeqTotal(a.serviceName, b.serviceName);
    }
    forall a: UsageEntry, b: UsageEntry, c: UsageEntry | UsageLeq(a, b) && UsageLeq(b, c)
      ensures UsageLeq(a, c)
    {
      UsageLeqTransitive(a, b, c);
    }
  }

  lemma UsageLeqTransitive(a: UsageEntry, b: UsageEntry, c: UsageEntry)
    requires UsageLeq(a, b) && UsageLeq(b, c)
    ensures UsageLeq(a, c)
  {
    var x, y, z := a.organisationName, b.organisationName, c.organisationName;
    if (x == "") == (y == "") == (z == "") {
      if x != y && y != z {
        StrLeqTransitive(x, y, z);
        if x == z {
          StrLeqAntisymmetric(x, y);
        }
      } else if x == y && y == z {
        StrLeqTransitive(a.serviceName, b.serviceName, c.serviceName);
      }
    }
  }

  /** `get_usage_for_all_services` after the date check: merge, then sort. */
  function UsageForAllServices(sms: seq<SmsCost>, letters: seq<LetterCost>, lines: seq<LetterLine>)
    : (r: Result<seq<UsageEntry>, KeyError>)
    ensures r.Ok? <==> AllKnown(lines, SmsIds(sms) + LetterIds(letters))
    ensures r.Ok? ==> UniqueIds(r.value) && Ids(r.value) == SmsIds(sms) + LetterIds(letters)
    ensures r.Ok? ==> Sorted(r.value, UsageLeq)
    ensures r.Ok? ==> forall e :: e in r.value ==> e.letterBreakdown == BreakdownFor(lines, e.serviceId)
    ensures r.Ok? ==> forall e :: e in r.value ==>
      e.serviceId in SmsIds(sms) + LetterIds(letters) && e == ServiceUsage(sms, letters, lines, e.serviceId)
  {
    var merged := Merged(sms, letters);
    var withBreakdown :- AddAllBreakdowns(merged, lines);
    var sorted := SortBy(withBreakdown, UsageLeq);
    UsageOrder();
    SortBySorted(withBreakdown, UsageLeq);
    PermutationKeepsIds(withBreakdown, sorted);
    PermutationKeepsBreakdowns(merged, withBreakdown, sorted, lines);
    PermutationKeepsUsage(sms, letters, lines, merged, withBreakdown, sorted);
    Ok(sorted)
  }

  /** The report entry of one service, defined per service rather than by the loops:
      names and sms figures from its last sms row, or else from its first letter-cost
      row; the letter cost of its last letter-cost row, 0 without one; its line items. */
  function ServiceUsage(sms: seq<SmsCost>, letters: seq<LetterCost>, lines: seq<LetterLine>, serviceId: string)
    : (e: UsageEntry)
    requires serviceId in SmsIds(sms) + LetterIds(letters)
    ensures e.serviceId == serviceId
    ensures serviceId !in LetterIds(letters) ==> e.letterCost == 0.0
    ensures serviceId !in SmsIds(sms) ==> e.smsCost == 0.0 && e.smsFragments == 0
  {
    var base := match LastSms(sms, serviceId)
      case Some(s) => SmsEntry(s)
      case None => LetterEntry(FirstLetter(letters, serviceId).value);
    var costed := match LastLetter(letters, serviceId)
      case Some(l) => base.(letterCost := l.letterCost)
      case None => base;
    costed.(letterBreakdown := BreakdownFor(lines, serviceId))
  }

  /** A service's sms figures and names come from its last sms row. */
  lemma LastSmsRowReported(sms: seq<SmsCost>, letters: seq<LetterCost>, lines: seq<LetterLine>, k: int)
    requires 0 <= k < |sms|
    requires forall j :: k < j < |sms| ==> sms[j].serviceId != sms[k].serviceId
    ensures sms[k].serviceId in SmsIds(sms)
    ensures var e := ServiceUsage(sms, letters, lines, sms[k].serviceId);
      && e.smsCost == sms[k].smsCost && e.smsFragments == sms[k].chargeableBillableSms
      && e.serviceName == sms[k].serviceName && e.organisationName == sms[k].organisationName.GetOr("")
  {
    LastSmsAt(sms, k);
  }

  /** A service's letter cost comes from its last letter-cost row. */
  lemma LastLetterRowCost(sms: seq<SmsCost>, letters: seq<LetterCost>, lines: seq<LetterLine>, k: int)
    requires 0 <= k < |letters|
    requires forall j :: k < j < |letters| ==> letters[j].serviceId != letters[k].serviceId
    ensures letters[k].serviceId in LetterIds(letters)
    ensures ServiceUsage(sms, letters, lines, letters[k].serviceId).letterCost == letters[k].letterCost
  {
    LastLetterAt(letters, k);
  }

  /** A service with no sms row takes its names from its first letter-cost row, with
      no sms cost or fragments. */
  lemma FirstLetterRowNames(sms: seq<SmsCost>, letters: seq<LetterCost>, lines: seq<LetterLine>, k: int)
    requires 0 <= k < |letters| && letters[k].serviceId !in SmsIds(sms)
    requires forall j :: 0 <= j < k ==> letters[j].serviceId != letters[k].serviceId
    ensures letters[k].serviceId in LetterIds(letters)
    ensures var e := ServiceUsage(sms, letters, lines, letters[k].serviceId);
      && e.serviceName == letters[k].serviceName && e.organisationName == letters[k].organisationName.GetOr("")
      && e.smsCost == 0.0 && e.smsFragments == 0
  {
    FirstLetterAt(letters, k);
  }

  lemma {:induction false} LastSmsAt(sms: seq<SmsCost>, k: int)
    requires 0 <= k < |sms|
    requires forall j :: k < j < |sms| ==> sms[j].serviceId != sms[k].serviceId
    ensures LastSms(sms, sms[k].serviceId) == Some(sms[k])
  {
    if k < |sms| - 1 {
      var prefix := sms[..|sms| - 1];
      LastSmsAt(prefix, k);
    }
  }

  lemma {:induction false} LastLetterAt(letters: seq<LetterCost>, k: int)
    requires 0 <= k < |letters|
    requires forall j :: k < j < |letters| ==> letters[j].serviceId != letters[k].serviceId
    ensures LastLetter(letters, letters[k].serviceId) == Some(letters[k])
  {
    if k < |letters| - 1 {
      var prefix := letters[..|letters| - 1];
      LastLetterAt(prefix, k);
    }
  }

  lemma {:induction false} FirstLetterAt(letters: seq<LetterCost>, k: int)
    requires 0 <= k < |letters|
    requires forall j :: 0 <= j < k ==> letters[j].serviceId != letters[k].serviceId
    ensures FirstLetter(letters, letters[k].serviceId) == Some(letters[k])
  {
    var prefix := letters[..|letters| - 1];
    if k < |letters| - 1 {
      FirstLetterAt(prefix, k);
    } else {
      assert letters[k].serviceId !in LetterIds(prefix) by {
        forall l | l in prefix ensures l.serviceId != letters[k].serviceId {
          var j :| 0 <= j < |prefix| && prefix[j] == l;
        }
      }
    }
  }

  /** The sms and letter-cost loops: one entry per service, no line items yet, each the
      service's reference entry. */
  function Merged(sms: seq<SmsCost>, letters: seq<LetterCost>): (r: seq<UsageEntry>)
    ensures UniqueIds(r) && NoBreakdown(r) && Ids(r) == SmsIds(sms) + LetterIds(letters)
    ensures forall e :: e in r ==>
      e.serviceId in SmsIds(sms) + LetterIds(letters) && e == ServiceUsage(sms, letters, [], e.serviceId)
  {
    assert Ids([]) == {};
    var afterSms := AddAllSms([], sms);
    var r := AddAllLetterCosts(afterSms, letters);
    forall e | e in r
      ensures e.serviceId in SmsIds(sms) + LetterIds(letters) && e == ServiceUsage(sms, letters, [], e.serviceId)
    {
      MergedEntry(sms, letters, afterSms, r, e);
    }
    r
  }

  lemma MergedEntry(sms: seq<SmsCost>, letters: seq<LetterCost>, afterSms: seq<UsageEntry>,
                    r: seq<UsageEntry>, e: UsageEntry)
    requires Ids(afterSms) == SmsIds(sms) && UniqueIds(afterSms)
    requires forall x :: x in afterSms ==> x.serviceId in SmsIds(sms) && x == AfterSms([], sms, x.serviceId)
    requires forall x :: x in r ==>
      x.serviceId in Ids(afterSms) + LetterIds(letters) && x == AfterLetters(afterSms, letters, x.serviceId)
    requires e in r
    ensures e.serviceId in SmsIds(sms) + LetterIds(letters) && e == ServiceUsage(sms, letters, [], e.serviceId)
  {
    var id := e.serviceId;
    if id in Ids(afterSms) {
      var entry := EntryOf(afterSms, id);
      assert entry == SmsEntry(LastSms(sms, id).value);
    }
  }

  lemma PermutationKeepsUsage(sms: seq<SmsCost>, letters: seq<LetterCost>, lines: seq<LetterLine>,
                              merged: seq<UsageEntry>, withBreakdown: seq<UsageEntry>, sorted: seq<UsageEntry>)
    requires forall e :: e in merged ==>
      e.serviceId in SmsIds(sms) + LetterIds(letters) && e == ServiceUsage(sms, letters, [], e.serviceId)
    requires |withBreakdown| == |merged|
    requires forall i :: 0 <= i < |merged| ==> withBreakdown[i] == WithBreakdown(merged[i], lines)
    requires multiset(withBreakdown) == multiset(sorted)
    ensures forall e :: e in sorted ==>
      e.serviceId in SmsIds(sms) + LetterIds(letters) && e == ServiceUsage(sms, letters, lines, e.serviceId)
  {
    forall e | e in sorted
      ensures e.serviceId in SmsIds(sms) + LetterIds(letters) && e == ServiceUsage(sms, letters, lines, e.serviceId)
    {
      assert e in multiset(sorted);
      var i :| 0 <= i < |withBreakdown| && withBreakdown[i] == e;
      assert merged[i] in merged;
      assert "" + BreakdownFor(lines, e.serviceId) == BreakdownFor(lines, e.serviceId);
    }
  }

  lemma PermutationKeepsBreakdowns(merged: seq<UsageEntry>, withBreakdown: seq<UsageEntry>,
                                   sorted: seq<UsageEntry>, lines: seq<LetterLine>)
    requires NoBreakdown(merged) && |withBreakdown| == |merged|
    requires forall i :: 0 <= i < |merged| ==> withBreakdown[i] == WithBreakdown(merged[i], lines)
    requires multiset(withBreakdown) == multiset(sorted)
    ensures forall e :: e in sorted ==> e.letterBreakdown == BreakdownFor(lines, e.serviceId)
  {
    forall e | e in sorted ensures e.letterBreakdown == BreakdownFor(lines, e.serviceId) {
      assert e in multiset(sorted);
      var i :| 0 <= i < |withBreakdown| && withBreakdown[i] == e;
      assert merged[i].letterBreakdown == "";
    }
  }

  lemma PermutationKeepsIds(a: seq<UsageEntry>, b: seq<UsageEntry>)
    requires multiset(a) == multiset(b) && UniqueIds(a)
    ensures UniqueIds(b) && Ids(b) == Ids(a)
  {
    assert forall e :: e in a <==> e in b by {
      forall e ensures e in a <==> e in b {
        assert e in a <==> e in multiset(a);
      }
    }
    forall i, j | 0 <= i < j < |b| ensures b[i].serviceId != b[j].serviceId {
      var i', j' := DistinctPositions(a, b, i, j);
    }
  }

  /** Two positions of a permutation come from two positions of the original. */
  lemma DistinctPositions(a: seq<UsageEntry>, b: seq<UsageEntry>, i: int, j: int) returns (i': int, j': int)
    requires multiset(a) == multiset(b) && 0 <= i < j < |b|
    ensures 0 <= i' < |a| && 0 <= j' < |a| && i' != j' && a[i'] == b[i] && a[j'] == b[j]
  {
    if b[i] == b[j] {
      assert multiset(b)[b[i]] >= 2 by {
        assert b == b[..i] + [b[i]] + b[i + 1..j] + [b[j]] + b[j + 1..];
      }
      i', j' := TwoCopies(a, b[i]);
    } else {
      assert b[i] in multiset(a) && b[j] in multiset(a);
      i' :| 0 <= i' < |a| && a[i'] == b[i];
      j' :| 0 <= j' < |a| && a[j'] == b[j];
    }
  }

  lemma TwoCopies(a: seq<UsageEntry>, e: UsageEntry) returns (i: int, j: int)
    requires multiset(a)[e] >= 2
    ensures 0 <= i < j < |a| && a[i] == e && a[j] == e
  {
    i :| 0 <= i < |a| && a[i] == e;
    assert a == a[..i] + [e] + a[i + 1..];
    assert multiset(a[..i] + a[i + 1..])[e] >= 1;
    var k :| 0 <= k < |a[..i] + a[i + 1..]| && (a[..i] + a[i + 1..])[k] == e;
    if k < i {
      i, j := k, i;
    } else {
      j := k + 1;
    }
  }
}
