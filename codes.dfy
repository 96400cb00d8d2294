/** The generated identifiers of the system, built from a calendar date and a uuid4().hex
    value supplied by the caller: invoice control numbers, release codes, tracking numbers
    and payment references; with parsers that invert them. */
module Codes {
  import opened Common
  import opened Text

  /** A calendar date as datetime.now() reports it (month lengths are not checked). */
  datatype CivilDate = CivilDate(year: nat, month: nat, day: nat)

  predicate IsCivil(d: CivilDate) {
    1 <= d.year <= 9999 && 1 <= d.month <= 12 && 1 <= d.day <= 31
  }

  /** strftime('%y%m%d'). */
  function Yymmdd(d: CivilDate): (s: string)
    requires IsCivil(d)
    ensures |s| == 6 && AllDigits(s)
  {
    TwoDigits(d.year % 100) + TwoDigits(d.month) + TwoDigits(d.day)
  }

  /** The three two-digit fields of a yymmdd stamp. */
  datatype Stamp = Stamp(yy: nat, mm: nat, dd: nat)

  function ParseYymmdd(s: string): (t: Stamp)
    requires |s| == 6 && AllDigits(s)
  {
    Stamp(DecimalValue(s[0..2]), DecimalValue(s[2..4]), DecimalValue(s[4..6]))
  }

  lemma YymmddRoundTrip(d: CivilDate)
    requires IsCivil(d)
    ensures ParseYymmdd(Yymmdd(d)) == Stamp(d.year % 100, d.month, d.day)
  {
    var s := Yymmdd(d);
    assert s[0..2] == TwoDigits(d.year % 100);
    assert s[2..4] == TwoDigits(d.month);
    assert s[4..6] == TwoDigits(d.day);
  }

  /** The shape shared by control numbers and release codes:
      prefix, six date digits, '-', six upper-case hexadecimal characters. */
  predicate IsDatedCode(s: string, prefix: string) {
    && |s| == |prefix| + 13
    && s[..|prefix|] == prefix
    && AllDigits(s[|prefix|..|prefix| + 6])
    && s[|prefix| + 6] == '-'
    && AllUpperHex(s[|prefix| + 7..])
  }

  /** prefix + strftime('%y%m%d') + "-" + uuid4().hex[:6].upper() */
  function DatedCode(prefix: string, d: CivilDate, u: string): (s: string)
    requires IsCivil(d) && IsUuidHex(u)
    ensures IsDatedCode(s, prefix)
  {
    var s := prefix + Yymmdd(d) + "-" + UpperPrefix(u, 6);
    assert s[..|prefix|] == prefix;
    assert s[|prefix|..|prefix| + 6] == Yymmdd(d);
    assert s[|prefix| + 7..] == UpperPrefix(u, 6);
    s
  }

  datatype DatedParts = DatedParts(stamp: Stamp, suffix: string)

  function ParseDatedCode(s: string, prefix: string): (r: Option<DatedParts>)
    ensures r.Some? <==> IsDatedCode(s, prefix)
    ensures r.Some? ==> |r.value.suffix| == 6 && AllUpperHex(r.value.suffix)
  {
    if IsDatedCode(s, prefix) then
      Some(DatedParts(ParseYymmdd(s[|prefix|..|prefix| + 6]), s[|prefix| + 7..]))
    else
      None
  }

  /** Parsing a generated code recovers the date fields and the upper-cased uuid prefix. */
  lemma DatedCodeRoundTrip(prefix: string, d: CivilDate, u: string)
    requires IsCivil(d) && IsUuidHex(u)
    ensures ParseDatedCode(DatedCode(prefix, d, u), prefix)
         == Some(DatedParts(Stamp(d.year % 100, d.month, d.day), UpperPrefix(u, 6)))
  {
    var s := DatedCode(prefix, d, u);
    assert s[|prefix|..|prefix| + 6] == Yymmdd(d);
    assert s[|prefix| + 7..] == UpperPrefix(u, 6);
    YymmddRoundTrip(d);
  }

  /** Every well-shaped code is the concatenation of its parts, so parsing loses nothing. */
  lemma DatedCodeReassembles(s: string, prefix: string)
    requires IsDatedCode(s, prefix)
    ensures s == prefix + s[|prefix|..|prefix| + 6] + "-" + ParseDatedCode(s, prefix).value.suffix
  {
  }

  /** Invoice control number: "ZP-" + yymmdd + "-" + six hex characters. */
  function ControlNumber(d: CivilDate, u: string): (s: string)
    requires IsCivil(d) && IsUuidHex(u)
    ensures IsControlNumber(s)
  {
    DatedCode("ZP-", d, u)
  }

  predicate IsControlNumber(s: string) {
    IsDatedCode(s, "ZP-")
  }

  /** Release code: "RO-" + yymmdd + "-" + six hex characters. */
  function ReleaseCode(d: CivilDate, u: string): (s: string)
    requires IsCivil(d) && IsUuidHex(u)
    ensures IsReleaseCode(s)
  {
    DatedCode("RO-", d, u)
  }

  predicate IsReleaseCode(s: string) {
    IsDatedCode(s, "RO-")
  }

  /** Cargo tracking number: "ZP-" + str(year) + "-" + eight hex characters. */
  function TrackingNumber(year: nat, u: string): (s: string)
    requires IsUuidHex(u)
    ensures IsTrackingNumber(s)
  {
    var s := "ZP-" + Decimal(year) + "-" + UpperPrefix(u, 8);
    assert s[..3] == "ZP-";
    assert s[3..|s| - 9] == Decimal(year);
    assert s[|s| - 8..] == UpperPrefix(u, 8);
    s
  }

  predicate IsTrackingNumber(s: string) {
    && |s| >= 13
    && s[..3] == "ZP-"
    && AllDigits(s[3..|s| - 9])
    && (|s| > 13 ==> s[3] != '0')
    && s[|s| - 9] == '-'
    && AllUpperHex(s[|s| - 8..])
  }

  datatype TrackingParts = TrackingParts(year: nat, suffix: string)

  function ParseTrackingNumber(s: string): (r: Option<TrackingParts>)
    ensures r.Some? <==> IsTrackingNumber(s)
  {
    if IsTrackingNumber(s) then Some(TrackingParts(DecimalValue(s[3..|s| - 9]), s[|s| - 8..])) else None
  }

  lemma TrackingNumberRoundTrip(year: nat, u: string)
    requires IsUuidHex(u)
    ensures ParseTrackingNumber(TrackingNumber(year, u)) == Some(TrackingParts(year, UpperPrefix(u, 8)))
  {
    var s := TrackingNumber(year, u);
    assert s[3..|s| - 9] == Decimal(year);
    assert s[|s| - 8..] == UpperPrefix(u, 8);
    DecimalThenValue(year);
  }

  /** The converse: every well-shaped tracking number is rebuilt from its parsed parts. */
  lemma TrackingNumberReassembles(s: string)
    requires IsTrackingNumber(s)
    ensures "ZP-" + Decimal(ParseTrackingNumber(s).value.year) + "-" + ParseTrackingNumber(s).value.suffix == s
  {
    var digits := s[3..|s| - 9];
    assert |digits| > 1 ==> digits[0] == s[3];
    ValueThenDecimal(digits);
    assert s == s[..3] + digits + [s[|s| - 9]] + s[|s| - 8..];
  }

  /** Manual payment reference default: "PAY-" + eight hex characters. */
  function ManualPaymentReference(u: string): (s: string)
    requires IsUuidHex(u)
    ensures |s| == 12 && s[..4] == "PAY-" && AllUpperHex(s[4..])
  {
    var s := "PAY-" + UpperPrefix(u, 8);
    assert s[4..] == UpperPrefix(u, 8);
    s
  }

  /** Auto-payment reference: "WLT-AUTO-" + eight hex characters. */
  function AutoPaymentReference(u: string): (s: string)
    requires IsUuidHex(u)
    ensures |s| == 17 && s[..9] == "WLT-AUTO-" && AllUpperHex(s[9..])
  {
    var s := "WLT-AUTO-" + UpperPrefix(u, 8);
    assert s[9..] == UpperPrefix(u, 8);
    s
  }
}
