/** The display helpers the screens share: the container names, the period captions with their
    hours, and the day/month/year rendering of a date. */
module Labels {
  import opened Text
  import opened Vocabulary
  import opened Shifts

  /** `containerLabel`: the caption of each of the four containers. */
  function ContainerLabel(k: ContainerKey): (s: string)
    ensures |s| > 0
  {
    match k
    case Efectivo => "Efectivo"
    case MercadoPago => "Mercado Pago"
    case CajaChica => "Caja Chica"
    case CajaFuerte => "Caja Fuerte"
  }

  /** No two containers share a caption, so a caption names its container. */
  lemma ContainerLabelsDistinct(k1: ContainerKey, k2: ContainerKey)
    ensures ContainerLabel(k1) == ContainerLabel(k2) <==> k1 == k2
  {
  }

  const MananaCaption: string := "\U{1F305} Mañana (06:00–14:00)"
  const TardeCaption: string := "☀️ Tarde (14:00–22:00)"
  const NocheCaption: string := "\U{1F319} Noche (22:00–06:00)"

  /** The members every plain object inherits from `Object.prototype`: a lookup of one of these
      names in an object literal finds the inherited member rather than nothing. */
  const InheritedNames: set<string> := {
    "constructor", "hasOwnProperty", "isPrototypeOf", "propertyIsEnumerable", "toString",
    "toLocaleString", "valueOf", "__proto__", "__defineGetter__", "__defineSetter__",
    "__lookupGetter__", "__lookupSetter__"}

  /** `periodLabel`: the caption of a known period name; any other text that is not an inherited
      member name comes back unchanged. */
  function PeriodLabel(period: string): (s: string)
    ensures period !in {"mañana", "tarde", "noche"} && period !in InheritedNames ==> s == period
    ensures period in {"mañana", "tarde", "noche"} ==> s in {MananaCaption, TardeCaption, NocheCaption}
  {
    if period == "mañana" then MananaCaption
    else if period == "tarde" then TardeCaption
    else if period == "noche" then NocheCaption
    else period
  }

  /** The caption of a period, as the table gives it. */
  function Caption(p: Period): string
  {
    match p
    case Manana => MananaCaption
    case Tarde => TardeCaption
    case Noche => NocheCaption
  }

  /** A shift read back from storage (its stored type lower-cased) is captioned with its own
      period, and the three captions differ. */
  lemma StoredShiftCaption(p: Period, q: Period)
    ensures PeriodLabel(Lower(ToDbShiftType(p))) == Caption(p)
    ensures Caption(p) == Caption(q) <==> p == q
  {
    ShiftTypeRoundTrip(p);
  }

  /** `^\d{4}-\d{2}-\d{2}$`: four digits, a dash, two digits, a dash, two digits. */
  predicate IsIsoDay(s: string)
  {
    && |s| == 10
    && IsDigit(s[0]) && IsDigit(s[1]) && IsDigit(s[2]) && IsDigit(s[3])
    && s[4] == '-'
    && IsDigit(s[5]) && IsDigit(s[6])
    && s[7] == '-'
    && IsDigit(s[8]) && IsDigit(s[9])
  }

  /** What `new Date(input)` yields, read in local time: not a date, or the day of the month,
      the zero-based month and the year. The parser and the time zone are outside the model. */
  datatype ParsedDate = Invalid | LocalDate(day: nat, month0: nat, year: int)

  /** `padStart(2, '0')`. */
  function Pad2(s: string): (r: string)
    ensures |s| >= 2 ==> r == s
    ensures |s| < 2 ==> |r| == 2 && r[2 - |s|..] == s
  {
    if |s| == 0 then "00" else if |s| == 1 then "0" + s else s
  }

  /** `formatDate` on a text: empty stays empty, an unparseable text comes back as it is, a bare
      `YYYY-MM-DD` has its three fields swapped without going through the clock, and any other
      date is rendered from its local-time fields. */
  function FormatDate(input: string, parsed: ParsedDate): (s: string)
    ensures input == "" ==> s == ""
    ensures input != "" && parsed.Invalid? ==> s == input
    ensures IsIsoDay(input) && parsed.LocalDate? ==> |s| == 10 && ToIsoDay(s) == input
  {
    if input == "" then ""
    else if parsed.Invalid? then input
    else if IsIsoDay(input) then
      IsoDaySplit(input);
      var parts := Split(input, '-');
      var t := parts[2] + "/" + parts[1] + "/" + parts[0];
      assert t[6..] == input[..4] && t[3..5] == input[5..7] && t[..2] == input[8..];
      assert input == input[..4] + "-" + input[5..7] + "-" + input[8..];
      t
    else
      Pad2(NatToString(parsed.day)) + "/" + Pad2(NatToString(parsed.month0 + 1)) + "/" + IntToString(parsed.year)
  }

  /** The dashes of a bare day split it into year, month and day. */
  lemma IsoDaySplit(s: string)
    requires IsIsoDay(s)
    ensures Split(s, '-') == [s[..4], s[5..7], s[8..]]
  {
    var y, m, d := s[..4], s[5..7], s[8..];
    assert '-' !in y && '-' !in m && '-' !in d;
    assert s == y + ['-'] + (m + ['-'] + d);
    SplitPrefix(y, '-', m + ['-'] + d);
    SplitPrefix(m, '-', d);
    SplitSingle(d, '-');
  }

  /** A bare day is written day/month/year from its own digits: the local-time fields, and so
      the time zone, play no part. */
  lemma IsoDayIgnoresClock(s: string, p1: ParsedDate, p2: ParsedDate)
    requires IsIsoDay(s) && p1.LocalDate? && p2.LocalDate?
    ensures FormatDate(s, p1) == s[8..] + "/" + s[5..7] + "/" + s[..4]
    ensures FormatDate(s, p1) == FormatDate(s, p2)
  {
    IsoDaySplit(s);
  }

  /** Reading a day/month/year text back as `YYYY-MM-DD`. */
  function ToIsoDay(t: string): (r: string)
    requires |t| == 10
    ensures |r| == 10
  {
    t[6..] + "-" + t[3..5] + "-" + t[..2]
  }

  /** Other dates are shown as two-digit day, two-digit month, then the year. */
  lemma ClockDateShape(s: string, day: nat, month0: nat, year: int)
    requires s != "" && !IsIsoDay(s) && 1 <= day <= 31 && month0 <= 11
    ensures var t := FormatDate(s, LocalDate(day, month0, year));
      |t| >= 7 && t[2] == '/' && t[5] == '/'
      && t[..2] == Pad2(NatToString(day)) && t[3..5] == Pad2(NatToString(month0 + 1))
  {
    NatToStringShort(day);
    NatToStringShort(month0 + 1);
    var a, b := Pad2(NatToString(day)), Pad2(NatToString(month0 + 1));
    var t := FormatDate(s, LocalDate(day, month0, year));
    assert t == a + "/" + b + "/" + IntToString(year);
  }

  /** Numbers below one hundred take one or two digits. */
  lemma NatToStringShort(n: nat)
    requires n < 100
    ensures 1 <= |NatToString(n)| <= 2
  {
    if n >= 10 {
      assert NatToString(n / 10) == [DigitChar(n / 10)];
    }
  }
}
