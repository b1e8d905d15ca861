/** The persisted entities of the agency back end, with the column shapes of the initial schema
    migration. Timestamps are whole seconds since 1970-01-01 00:00 (naive UTC, as the columns store
    them); calendar dates are (year, month, day) triples; money is whole cents. */
module Records {
  import opened Wrappers

  /** A Python `datetime.date`. */
  datatype Date = Date(year: int, month: int, day: int)

  predicate DateLt(a: Date, b: Date)
  {
    a.year < b.year
    || (a.year == b.year && a.month < b.month)
    || (a.year == b.year && a.month == b.month && a.day < b.day)
  }

  predicate DateLe(a: Date, b: Date) { DateLt(a, b) || a == b }

  predicate IsLeapYear(y: int) { y % 4 == 0 && (y % 100 != 0 || y % 400 == 0) }

  function DaysInMonth(y: int, m: int): int
  {
    if m == 2 then (if IsLeapYear(y) then 29 else 28)
    else if m == 4 || m == 6 || m == 9 || m == 11 then 30
    else 31
  }

  /** The arguments `date(y, m, d)` accepts without raising `ValueError`. */
  predicate IsValidDate(y: int, m: int, d: int)
  {
    1 <= y <= 9999 && 1 <= m <= 12 && 1 <= d <= DaysInMonth(y, m)
  }

  const SecondsPerDay: int := 86400

  /** The number of days from 1970-01-01 to the given proleptic Gregorian date. */
  function DaysFromCivil(y: int, m: int, d: int): int
  {
    var y' := if m <= 2 then y - 1 else y;
    var era := y' / 400;
    var yoe := y' - era * 400;
    var mp := (m + 9) % 12;
    var doy := (153 * mp + 2) / 5 + d - 1;
    var doe := yoe * 365 + yoe / 4 - yoe / 100 + doy;
    era * 146097 + doe - 719468
  }

  /** The calendar date of day number `z` counted from 1970-01-01 (inverse of DaysFromCivil). */
  function CivilFromDays(z: int): Date
  {
    var z' := z + 719468;
    var era := z' / 146097;
    var doe := z' - era * 146097;
    var yoe := (doe - doe / 1460 + doe / 36524 - doe / 146096) / 365;
    var doy := doe - (365 * yoe + yoe / 4 - yoe / 100);
    var mp := (5 * doy + 2) / 153;
    var d := doy - (153 * mp + 2) / 5 + 1;
    var m := if mp < 10 then mp + 3 else mp - 9;
    Date(yoe + era * 400 + (if m <= 2 then 1 else 0), m, d)
  }

  /** `datetime.date()` of a timestamp. */
  function DateOf(t: int): Date { CivilFromDays(t / SecondsPerDay) }

  /** `datetime(y, m, d)` as a timestamp (midnight). */
  function Midnight(y: int, m: int, d: int): int { DaysFromCivil(y, m, d) * SecondsPerDay }

  lemma EpochIsDayZero()
    ensures CivilFromDays(0) == Date(1970, 1, 1)
    ensures DaysFromCivil(1970, 1, 1) == 0
  {
    EpochFromDays();
    EpochToDays();
  }

  lemma EpochFromDays()
    ensures CivilFromDays(0) == Date(1970, 1, 1)
  {
    var doe := 719468 - 4 * 146097;
    assert doe == 135080 && 719468 / 146097 == 4;
    assert doe / 1460 == 92 && doe / 36524 == 3 && doe / 146096 == 0;
    assert (doe - 92 + 3) / 365 == 369;
    var doy := doe - (365 * 369 + 369 / 4 - 369 / 100);
    assert doy == 306;
    assert (5 * doy + 2) / 153 == 10 && (153 * 10 + 2) / 5 == 306;
  }

  lemma EpochToDays()
    ensures DaysFromCivil(1970, 1, 1) == 0
  {
    assert 1969 / 400 == 4 && (1 + 9) % 12 == 10;
    assert (153 * 10 + 2) / 5 == 306;
    assert 369 / 4 == 92 && 369 / 100 == 3;
  }

  /** A JSON document (`quote_data`, `claim_data`). The model only copies it. */
  datatype Json = JNull | JBool(b: bool) | JNumber(n: int) | JString(s: string)
                | JArray(items: seq<Json>) | JObject(fields: map<string, Json>)

  datatype User = User(
    id: int, username: string, email: string, fullName: string, phone: Option<string>,
    isActive: bool, isAdmin: bool, createdAt: int)

  datatype QuoteRequest = QuoteRequest(
    id: int, userId: int, category: string, subcategory: Option<string>, status: string,
    quoteData: Json, agentNotes: Option<string>, customerNotes: Option<string>,
    quoteAmount: Option<int>, appointmentDate: Option<Date>, quotedAt: Option<int>, createdAt: int)

  datatype Claim = Claim(
    id: int, userId: int, category: string, subcategory: Option<string>, incidentDate: Date,
    incidentSummary: string, claimData: Json, appointmentRequested: Option<Date>,
    contactPreference: string, preferredContactTime: Option<string>,
    additionalNotes: Option<string>, status: string, adminNotes: Option<string>,
    contactedAt: Option<int>, createdAt: int)

  datatype ContactMessage = ContactMessage(
    id: int, userId: Option<int>, fullName: string, email: string, phone: Option<string>,
    subject: string, message: string, status: string, adminResponse: Option<string>,
    appointmentDate: Option<Date>, respondedAt: Option<int>, createdAt: int)

  /** A row of `audit_logs`. */
  datatype AuditEntry = AuditEntry(
    id: int, userId: Option<int>, action: string, entityType: Option<string>,
    entityId: Option<int>, details: Option<string>, ipAddress: Option<string>, createdAt: int)

  /** One recorded field change of an admin update: the values of the `changes` dictionary. */
  datatype ChangeValue =
    | StatusChange(from: string, to: string)        // {"old": ..., "new": ...}
    | AmountChange(fromCents: Option<int>, toCents: int)
    | FlagChange(fromFlag: bool, toFlag: bool)
    | DateChange(fromDate: Option<Date>, toDate: Date)
    | TextUpdated                                    // {"updated": True}
    | AutoUpdated(target: string)                    // {"auto_updated": "responded"}

  /** The `details` argument of an audit call: absent, a literal text, or the text
      `prefix + repr(changes)` of an admin update. */
  datatype AuditDetails = NoDetails | Text(text: string) | Changes(prefix: string, changes: map<string, ChangeValue>)

  /** The arguments of one call of `AuditLogService.log_user_action`. */
  datatype AuditCall = AuditCall(
    userId: Option<int>, action: string, entityType: Option<string>, entityId: Option<int>,
    details: AuditDetails, ipAddress: Option<string>)

  /** The statuses the admin edits accept for each kind of record. */
  const QuoteStatuses: seq<string> := ["pending", "in_review", "quoted", "accepted", "declined"]
  const ClaimStatuses: seq<string> := ["submitted", "contacted", "closed"]
  const MessageStatuses: seq<string> := ["new", "read", "responded", "closed"]

  function QuoteIdIs(id: int): QuoteRequest -> bool { (q: QuoteRequest) => q.id == id }
  function ClaimIdIs(id: int): Claim -> bool { (c: Claim) => c.id == id }
  function MessageIdIs(id: int): ContactMessage -> bool { (m: ContactMessage) => m.id == id }
  function UserIdIs(id: int): User -> bool { (u: User) => u.id == id }

  /** `f"{category}"`, followed by `f" - {subcategory}"` when the subcategory is truthy. */
  function InsuranceDescription(category: string, subcategory: Option<string>): string
  {
    if subcategory.Some? && subcategory.value != "" then category + " - " + subcategory.value
    else category
  }
}
