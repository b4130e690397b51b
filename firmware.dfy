/**
 * The firmware-version text a config-ack frame reports: year, month and day,
 * each in plain decimal, joined by '-'.
 */
module Firmware {
  import opened Wrappers
  import opened Decimal

  /** A firmware release date as the sensor reports it (two-digit year). */
  datatype Version = Version(year: nat, month: nat, day: nat)

  const SEPARATOR: char := '-'

  /** The text `year-month-day`, each part in unpadded decimal. */
  function FirmwareString(year: nat, month: nat, day: nat): (s: string)
    ensures 5 <= |s|
  {
    Render(year) + [SEPARATOR] + Render(month) + [SEPARATOR] + Render(day)
  }

  /** The position of the first `c` in `s`, if there is one. */
  function IndexOf(s: string, c: char): (r: Option<nat>)
    ensures r.None? ==> c !in s
    ensures r.Some? ==> r.value < |s| && s[r.value] == c && c !in s[..r.value]
  {
    if s == [] then None
    else if s[0] == c then Some(0)
    else match IndexOf(s[1..], c)
      case None => None
      case Some(i) =>
        assert s[..i + 1] == [s[0]] + s[1..][..i];
        Some(i + 1)
  }

  /** A non-empty run of decimal digits, read as a number. */
  function ParseField(s: string): (r: Option<nat>)
  {
    if s != [] && AllDigits(s) then Some(Parse(s)) else None
  }

  /** The text before and the text after the first separator, if there is one. */
  function SplitOnce(s: string): (r: Option<(string, string)>)
    ensures r.Some? ==> s == r.value.0 + [SEPARATOR] + r.value.1 && SEPARATOR !in r.value.0
    ensures r.None? ==> SEPARATOR !in s
  {
    match IndexOf(s, SEPARATOR)
    case None => None
    case Some(i) =>
      assert s == s[..i] + [SEPARATOR] + s[i + 1..];
      Some((s[..i], s[i + 1..]))
  }

  /** Reads a `year-month-day` text back into its three numbers. */
  function ParseFirmware(s: string): (r: Option<Version>)
  {
    match SplitOnce(s)
    case None => None
    case Some((y, rest)) =>
      match SplitOnce(rest)
      case None => None
      case Some((m, d)) =>
        match (ParseField(y), ParseField(m), ParseField(d))
        case (Some(year), Some(month), Some(day)) => Some(Version(year, month, day))
        case _ => None
  }

  /** Splitting `p + [SEPARATOR] + q` gives back `p` and `q` when `p` holds no separator. */
  lemma SplitOnceJoined(p: string, q: string)
    requires SEPARATOR !in p
    ensures SplitOnce(p + [SEPARATOR] + q) == Some((p, q))
  {
    var s := p + [SEPARATOR] + q;
    assert s[|p|] == SEPARATOR;
    assert s[..|p|] == p;
    assert s[|p| + 1..] == q;
  }

  /** A run of digits holds no separator. */
  lemma NoSeparatorInDigits(s: string)
    requires AllDigits(s)
    ensures SEPARATOR !in s
  {
  }

  /** Three runs of digits joined by separators parse back into their three values. */
  lemma ParseJoinedFields(y: string, m: string, d: string)
    requires y != [] && m != [] && d != []
    requires AllDigits(y) && AllDigits(m) && AllDigits(d)
    ensures ParseFirmware(y + [SEPARATOR] + m + [SEPARATOR] + d) == Some(Version(Parse(y), Parse(m), Parse(d)))
  {
    var rest := m + [SEPARATOR] + d;
    assert y + [SEPARATOR] + m + [SEPARATOR] + d == y + [SEPARATOR] + rest;
    NoSeparatorInDigits(y);
    SplitOnceJoined(y, rest);
    NoSeparatorInDigits(m);
    SplitOnceJoined(m, d);
  }

  /** The firmware text is unambiguous: parsing it gives back the three numbers. */
  lemma ParseFirmwareString(year: nat, month: nat, day: nat)
    ensures ParseFirmware(FirmwareString(year, month, day)) == Some(Version(year, month, day))
  {
    ParseJoinedFields(Render(year), Render(month), Render(day));
    ParseRender(year);
    ParseRender(month);
    ParseRender(day);
  }

  /** The firmware text holds exactly two separators, one after the year and one after the month. */
  lemma FirmwareStringSeparators(year: nat, month: nat, day: nat)
    ensures multiset(FirmwareString(year, month, day))[SEPARATOR] == 2
    ensures FirmwareString(year, month, day)[|Render(year)|] == SEPARATOR
    ensures FirmwareString(year, month, day)[|Render(year)| + 1 + |Render(month)|] == SEPARATOR
  {
    NoSeparatorInDigits(Render(year));
    NoSeparatorInDigits(Render(month));
    NoSeparatorInDigits(Render(day));
    JoinedSeparatorCount(Render(year), Render(month), Render(day));
  }

  /** Joining three separator-free texts with two separators gives exactly two. */
  lemma JoinedSeparatorCount(y: string, m: string, d: string)
    requires SEPARATOR !in y && SEPARATOR !in m && SEPARATOR !in d
    ensures multiset(y + [SEPARATOR] + m + [SEPARATOR] + d)[SEPARATOR] == 2
  {
    assert multiset(y + [SEPARATOR] + m + [SEPARATOR] + d)
      == multiset(y) + multiset{SEPARATOR} + multiset(m) + multiset{SEPARATOR} + multiset(d);
  }

  /** Different dates never share a firmware text. */
  lemma FirmwareStringInjective(a: Version, b: Version)
    requires FirmwareString(a.year, a.month, a.day) == FirmwareString(b.year, b.month, b.day)
    ensures a == b
  {
    ParseFirmwareString(a.year, a.month, a.day);
    ParseFirmwareString(b.year, b.month, b.day);
  }
}
