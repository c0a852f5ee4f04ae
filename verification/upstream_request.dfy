/** The query sent to the upstream DONKI notifications endpoint: a one-day
    window ending and starting on the date of the current instant, the
    caller's type filter (default "all"), and the configured API key. The
    clock is not read here: the current instant arrives as the text of an
    ISO-8601 timestamp, as `Date.prototype.toISOString` produces it. */
module UpstreamRequest {
  import opened Wrappers
  import opened Json

  const DefaultType := "all"

  datatype UpstreamParams = UpstreamParams(
    startDate: string,
    endDate: string,
    typeFilter: string,
    apiKey: Option<string>)

  /** `iso.split('T')[0]`: the text before the first 'T', or all of it when
      there is no 'T'. */
  function DatePrefix(iso: string): (r: string)
    ensures r <= iso
    ensures 'T' !in r
    ensures |r| == |iso| || iso[|r|] == 'T'
  {
    if |iso| == 0 || iso[0] == 'T' then "" else [iso[0]] + DatePrefix(iso[1..])
  }

  /** The three properties of `DatePrefix` pin it down: any 'T'-free prefix
      that reaches the end or stops at a 'T' is the date prefix. */
  lemma DatePrefixUnique(iso: string, p: string)
    requires p <= iso
    requires 'T' !in p
    requires |p| == |iso| || iso[|p|] == 'T'
    ensures p == DatePrefix(iso)
  {
  }

  /** `yyyy-MM-dd` in shape (digits and dashes; ranges are not checked). */
  predicate IsCalendarDateText(s: string) {
    && |s| == 10
    && IsDigit(s[0]) && IsDigit(s[1]) && IsDigit(s[2]) && IsDigit(s[3])
    && s[4] == '-'
    && IsDigit(s[5]) && IsDigit(s[6])
    && s[7] == '-'
    && IsDigit(s[8]) && IsDigit(s[9])
  }

  /** `yyyy-MM-ddTHH:mm:ss.sssZ`, the shape `toISOString` gives for years
      0 through 9999. */
  predicate IsIsoTimestamp(s: string) {
    && |s| == 24
    && IsCalendarDateText(s[..10])
    && s[10] == 'T'
    && IsDigit(s[11]) && IsDigit(s[12]) && s[13] == ':'
    && IsDigit(s[14]) && IsDigit(s[15]) && s[16] == ':'
    && IsDigit(s[17]) && IsDigit(s[18]) && s[19] == '.'
    && IsDigit(s[20]) && IsDigit(s[21]) && IsDigit(s[22])
    && s[23] == 'Z'
  }

  /** For a timestamp in the usual shape, the date prefix is its first ten
      characters, a `yyyy-MM-dd` date. */
  lemma IsoTimestampDate(s: string)
    requires IsIsoTimestamp(s)
    ensures DatePrefix(s) == s[..10]
    ensures IsCalendarDateText(DatePrefix(s))
  {
  }

  /** The parameters of the upstream request. The `type` argument is passed
      through as given, without being checked against the table; only an
      absent one is replaced by "all". */
  function BuildParams(nowIso: string, typeArg: Option<string>, apiKey: Option<string>): (p: UpstreamParams)
    ensures p.startDate == p.endDate
    ensures p.startDate <= nowIso && 'T' !in p.startDate
    ensures |p.startDate| == |nowIso| || nowIso[|p.startDate|] == 'T'
    ensures typeArg.None? ==> p.typeFilter == DefaultType
    ensures typeArg.Some? ==> p.typeFilter == typeArg.value
    ensures p.apiKey == apiKey
  {
    var today := DatePrefix(nowIso);
    UpstreamParams(today, today, if typeArg.Some? then typeArg.value else DefaultType, apiKey)
  }

  /** With a well-formed timestamp, both window ends are its calendar date. */
  lemma BuildParamsDateWindow(nowIso: string, typeArg: Option<string>, apiKey: Option<string>)
    requires IsIsoTimestamp(nowIso)
    ensures BuildParams(nowIso, typeArg, apiKey).startDate == nowIso[..10]
    ensures BuildParams(nowIso, typeArg, apiKey).endDate == nowIso[..10]
  {
  }
}
