/** The records the tracker's pages are scraped into, the converters from the
    pages' text to numbers and dates, and the per-table row extractors of
    Torrent.go. Sizes are exact: a byte count is the whole part of an exact
    decimal times a unit, where Go computes it in float64. */
module Torrent {
  import opened Wrappers
  import opened GoStrings
  import opened GoStrconv
  import opened Pattern
  import opened Library
  import opened Dom

  // ----- Records -----

  datatype TorrentFile = TorrentFile(name: string, size: nat)

  /** A ratio column: "Inf.", "---" or a number. */
  datatype Ratio = Infinite | Undefined | Value(d: Decimal)

  datatype Peer = Peer(
    name: string, connectable: bool, seeder: bool,
    uploaded: nat, downloaded: nat, ulrate: nat, dlrate: nat,
    ratio: Ratio, completed: Decimal, connected: nat, idle: nat, client: string)

  datatype Snatch = Snatch(
    name: string, uploaded: nat, downloaded: nat, ratio: Ratio,
    completed: Time, stopped: Time, seeding: bool)

  datatype TorrentEntry = TorrentEntry(
    id: int, name: string, category: int, added: Time, size: nat,
    description: string, infoHash: string,
    fileCount: int, seederCount: int, leecherCount: int, snatchCount: int, commentCount: int,
    uploader: string,
    files: seq<TorrentFile>, peers: seq<Peer>, snatches: seq<Snatch>)

  /** TorrentEntry{}: every field zero. */
  const EmptyEntry := TorrentEntry(0, "", 0, ZeroTime, 0, "", "", 0, 0, 0, 0, 0, "", [], [], [])

  /** The Peer literal parsePeerList starts from and resets to after every row. */
  const EmptyPeer := Peer("", false, false, 0, 0, 0, 0, Value(DecimalZero), DecimalZero, 0, 0, "")

  /** Why a row or a page could not be read. Number and time errors carry what
      strconv and time report; their message text is theirs. */
  datatype ParseError = MissingHref(what: string) | BadNumber(e: NumError) | BadTime(text: string) | NoDetailsTable

  /** The messages of the client's own errors. */
  function ErrorText(e: ParseError): (t: string)
    ensures e.MissingHref? ==> HasPrefix(t, e.what)
  {
    match e
    case MissingHref(what) => what + " is missing href attr"
    case BadNumber(ErrSyntax) => "invalid syntax"
    case BadNumber(ErrRange) => "value out of range"
    case BadTime(text) => "cannot parse \"" + text + "\""
    case NoDetailsTable => "could not find details table"
  }

  // ----- Sizes -----

  /** The multiplier a unit word selects; any other word leaves the number as it is. */
  function UnitFactor(units: Units, u: string): (f: nat)
    ensures units.Valid() ==> f >= 1
  {
    if u == "KB" then units.kb
    else if u == "MB" then units.mb
    else if u == "GB" then units.gb
    else if u == "TB" then units.tb
    else if u == "PB" then units.pb
    else if u == "EB" then units.eb
    else 1
  }

  /** A unit suffix that is none of the six known ones counts as single bytes. */
  lemma UnknownUnit(units: Units, u: string)
    requires u !in {"KB", "MB", "GB", "TB", "PB", "EB"}
    ensures UnitFactor(units, u) == 1
  {
  }

  /** The number part of a size in German notation: thousands dots removed, the
      first comma made the decimal point. */
  function LocaleNumber(s: string): string
  {
    ReplaceFirst(ReplaceAll(s, ".", ""), ",", ".")
  }

  /** stringToDatasize: "<number> <unit>" to bytes. Text without a space is 0; an
      unparseable number is 0; otherwise the whole part of number times unit. */
  function StringToDatasize(units: Units, s: string): (n: nat)
    ensures Count(s, ' ') == 0 ==> n == 0
    ensures Count(s, ' ') > 0 && ParseDecimal(LocaleNumber(Split(s, ' ')[0])).None? ==> n == 0
    ensures Count(s, ' ') > 0 && ParseDecimal(LocaleNumber(Split(s, ' ')[0])).Some? ==>
      var d := ParseDecimal(LocaleNumber(Split(s, ' ')[0])).value;
      var f := UnitFactor(units, Split(s, ' ')[1]);
      (d.negative ==> n == 0) &&
      (!d.negative ==> n * Pow10(d.scale) <= d.mantissa * f < (n + 1) * Pow10(d.scale))
  {
    var parts := Split(s, ' ');
    if |parts| == 1 then 0
    else
      var d := ParseDecimal(LocaleNumber(parts[0])).GetOr(DecimalZero);
      var f := UnitFactor(units, parts[1]);
      if d.negative then 0 else TruncToNatBounds(d, f); TruncToNat(d, f)
  }

  lemma SplitNumberUnit(num: string, u: string)
    requires ' ' !in num && ' ' !in u
    ensures Split(num + " " + u, ' ') == [num, u]
  {
    SplitAround(num, u, ' ');
    SplitNone(u, ' ');
    assert num + " " + u == num + [' '] + u;
  }

  lemma NoDigitIs(s: string, c: char)
    requires AllDigits(s) && !IsDigit(c)
    ensures c !in s
  {
    assert forall i :: 0 <= i < |s| ==> s[i] != c;
  }

  lemma LocaleDigits(w: string, digits: string, f: string)
    requires ReplaceAll(w, ".", "") == digits && AllDigits(digits) && AllDigits(f)
    ensures LocaleNumber(w + "," + f) == digits + "." + f
  {
    var tail := [','] + f;
    assert w + "," + f == w + tail;
    assert ReplaceAll(w + tail, ".", "") == digits + tail by {
      NoDigitIs(f, '.');
      assert '.' !in tail;
      ReplaceOneAbsent(tail, '.', []);
      ReplaceOneAppend(w, tail, '.', []);
    }
    assert ReplaceFirst(digits + tail, ",", ".") == digits + "." + f by {
      NoDigitIs(digits, ',');
      ReplaceFirstAt(digits, f, ',', ".");
      assert digits + tail == digits + [','] + f;
    }
  }

  /** A size written "<digits and dots>,<digits> <unit>" is read as the digits with the
      dots dropped, scaled down by the fraction's length, times the unit. */
  lemma DatasizeLocale(units: Units, w: string, digits: string, f: string, u: string)
    requires ReplaceAll(w, ".", "") == digits && AllDigits(digits) && AllDigits(f)
    requires |digits| + |f| > 0
    requires ' ' !in w && ' ' !in f && ' ' !in u
    ensures StringToDatasize(units, w + "," + f + " " + u) == (DigitsValue(digits + f) * UnitFactor(units, u)) / Pow10(|f|)
  {
    var num := w + "," + f;
    assert ' ' !in num;
    SplitNumberUnit(num, u);
    LocaleDigits(w, digits, f);
    ParseDecimalPoint(digits, f);
  }

  /** The worked case: "1.234,56 MB" is 1234.56 megabytes, rounded down. */
  lemma DatasizeExample(units: Units)
    ensures StringToDatasize(units, "1.234,56 MB") == (123456 * units.mb) / 100
  {
    DatasizeExampleSteps(units);
    DigitsExample();
    assert Pow10(2) == 100;
  }

  lemma DatasizeExampleSteps(units: Units)
    ensures StringToDatasize(units, "1.234,56 MB") == (DigitsValue("123456") * units.mb) / Pow10(2)
  {
    ThousandsDot();
    DigitsExample();
    DatasizeLocale(units, "1.234", "1234", "56", "MB");
    assert "1.234" + "," + "56" + " " + "MB" == "1.234,56 MB";
    assert "1234" + "56" == "123456";
  }

  lemma ThousandsDot()
    ensures ReplaceAll("1.234", ".", "") == "1234"
  {
    ReplaceOneAppend("1", ".234", '.', "");
    ReplaceOneAbsent("1", '.', "");
    ReplaceAtFront("234", ".", "");
    ReplaceOneAbsent("234", '.', "");
    assert "1" + ".234" == "1.234";
  }

  lemma DigitsExample()
    ensures AllDigits("1234") && AllDigits("56") && AllDigits("123456")
    ensures DigitsValue("123456") == 123456
  {
    var six := "123456";
    assert six[..5][..4][..3][..2][..1][..0] == [];
    assert DigitsValue(six[..1]) == 1;
    assert DigitsValue(six[..2]) == 12;
    assert six[..3][..2] == six[..2];
    assert DigitsValue(six[..3]) == 123;
    assert six[..4][..3] == six[..3];
    assert DigitsValue(six[..4]) == 1234;
    assert six[..5][..4] == six[..4];
    assert DigitsValue(six[..5]) == 12345;
    assert six[..5] == six[..|six| - 1];
  }

  /** Text without a space has no unit and is 0 bytes. */
  lemma DatasizeNoSpace(units: Units, s: string)
    requires ' ' !in s
    ensures StringToDatasize(units, s) == 0
  {
    CountAbsent(s, ' ');
  }

  /** The size column of the torrent list needs a comma with two characters after it
      (Go slices the text there and panics otherwise). */
  predicate SizeShaped(raw: string)
  {
    0 <= IndexOf(raw, ',') && IndexOf(raw, ',') + 3 <= |raw|
  }

  /** The size column "I,FFU": the whole part before the comma, two decimals after
      it, then the unit; the bytes are I.FF times the unit, rounded toward zero.
      A part that is not a number is an error. */
  function SizeCell(units: Units, raw: string): (r: Result<nat, NumError>)
    requires SizeShaped(raw)
    ensures var c := IndexOf(raw, ',');
      (r.Err? <==> ParseInt32(raw[..c]).err.Some? || ParseInt32(raw[c + 1..c + 3]).err.Some?)
  {
    var c := IndexOf(raw, ',');
    var whole := ParseInt32(raw[..c]);
    var frac := ParseInt32(raw[c + 1..c + 3]);
    if whole.err.Some? then Err(whole.err.value)
    else if frac.err.Some? then Err(frac.err.value)
    else Ok(TruncToNat(Hundredths(whole.value * 100 + frac.value), UnitFactor(units, raw[c + 3..])))
  }

  /** n / 100 as an exact decimal. */
  function Hundredths(n: int): (d: Decimal)
    ensures d.scale == 2 && (d.negative <==> n < 0) && (n >= 0 ==> d.mantissa == n)
  {
    if n < 0 then Decimal(true, -n, 2) else Decimal(false, n, 2)
  }

  /** A size column spelled "<digits>,<two digits><unit>" whose two parts denote a
      and b is the number of hundredths a * 100 + b times the unit, divided by 100
      and rounded down. */
  lemma SizeCellDigits(units: Units, i: string, ff: string, u: string, a: nat, b: nat)
    requires |i| > 0 && AllDigits(i) && a == DigitsValue(i) && a < Cutoff32
    requires |ff| == 2 && AllDigits(ff) && b == DigitsValue(ff)
    ensures SizeShaped(i + "," + ff + u)
    ensures SizeCell(units, i + "," + ff + u) == Ok(((a * 100 + b) * UnitFactor(units, u)) / 100)
  {
    var raw := i + "," + ff + u;
    SizeComma(i, ff, u);
    ParseInt32Digits(i);
    DigitsValueBound(ff);
    assert Pow10(2) == 100;
    ParseInt32Digits(ff);
    SizeCellFrom(units, raw, i, ff, u, a, b);
    TruncHundredths(a * 100 + b, UnitFactor(units, u));
  }

  lemma ParseInt32Digits(d: string)
    requires |d| > 0 && AllDigits(d) && DigitsValue(d) < Cutoff32
    ensures ParseInt32(d) == Parsed(DigitsValue(d), None)
  {
    ParseIntDigits(d, Cutoff32);
  }

  lemma SizeCellFrom(units: Units, raw: string, i: string, ff: string, u: string, a: int, b: int)
    requires IndexOf(raw, ',') == |i| && |i| + 3 <= |raw|
    requires raw[..|i|] == i && raw[|i| + 1..|i| + 3] == ff && raw[|i| + 3..] == u
    requires ParseInt32(i) == Parsed(a, None) && ParseInt32(ff) == Parsed(b, None)
    ensures SizeShaped(raw)
    ensures SizeCell(units, raw) == Ok(TruncToNat(Hundredths(a * 100 + b), UnitFactor(units, u)))
  {
    var c := IndexOf(raw, ',');
    var whole, frac := ParseInt32(raw[..c]), ParseInt32(raw[c + 1..c + 3]);
    assert whole == Parsed(a, None) && frac == Parsed(b, None);
    var f := UnitFactor(units, raw[c + 3..]);
    assert f == UnitFactor(units, u);
    assert SizeCell(units, raw) == Ok(TruncToNat(Hundredths(a * 100 + b), f));
  }

  lemma SizeComma(i: string, ff: string, u: string)
    requires AllDigits(i) && |ff| == 2
    ensures var raw := i + "," + ff + u;
      IndexOf(raw, ',') == |i| && raw[..|i|] == i && raw[|i| + 1..|i| + 3] == ff && raw[|i| + 3..] == u
  {
    var raw := i + "," + ff + u;
    NoDigitIs(i, ',');
    assert raw[|i|] == ',' && raw[..|i|] == i;
  }

  lemma TruncHundredths(n: nat, f: nat)
    ensures TruncToNat(Hundredths(n), f) == (n * f) / 100
  {
    assert Pow10(2) == 100;
  }

  // ----- Ratios -----

  /** The three-way ratio rule: "Inf." and "---" are named; anything else is the
      number `number` spells, or 0 when it spells none. */
  function RatioOf(text: string, number: string): (r: Ratio)
    ensures r == Infinite <==> text == "Inf."
    ensures r == Undefined <==> text == "---"
    ensures r.Value? ==> r.d == ParseDecimal(number).GetOr(DecimalZero)
  {
    if text == "Inf." then Infinite
    else if text == "---" then Undefined
    else Value(ParseDecimal(number).GetOr(DecimalZero))
  }

  /** The float64 Go stores for a ratio: -1 for infinite, 0 for undefined. */
  function RatioNumber(r: Ratio): (d: Decimal)
    ensures r == Infinite ==> d == DecimalMinusOne
    ensures r == Undefined ==> d == DecimalZero
    ensures r.Value? ==> d == r.d
  {
    match r
    case Infinite => DecimalMinusOne
    case Undefined => DecimalZero
    case Value(v) => v
  }

  // ----- Connection time -----

  predicate IsClockChar(c: char)
  {
    IsDigit(c) || c == ':'
  }

  /** The length of the longest prefix made of digits and colons. */
  function ClockRun(s: string): (k: nat)
    ensures k <= |s|
    ensures forall i :: 0 <= i < k ==> IsClockChar(s[i])
    ensures k < |s| ==> !IsClockChar(s[k])
  {
    if |s| == 0 || !IsClockChar(s[0]) then 0 else 1 + ClockRun(s[1..])
  }

  /** The first position holding a digit or a colon, or -1. */
  function FirstClock(s: string): (p: int)
    ensures -1 <= p < |s|
    ensures p >= 0 ==> IsClockChar(s[p])
    ensures forall i :: 0 <= i < |s| && (p == -1 || i < p) ==> !IsClockChar(s[i])
  {
    if |s| == 0 then -1
    else if IsClockChar(s[0]) then 0
    else
      var q := FirstClock(s[1..]);
      if q == -1 then -1 else q + 1
  }

  /** The groups m[1], m[2], m[3] of `(:?(\d+)d )?([0-9:]+)`. The match starts at the
      first digit or colon: every way of matching starts with one. There the optional
      group is tried first (an optional colon, a digit run, "d "), and kept only when
      a digit or colon follows it; otherwise groups 1 and 2 are empty and group 3 is
      the run of digits and colons. */
  datatype DurationGroups = DurationGroups(outer: string, days: string, clock: string)

  function DurationMatch(s: string): (g: Option<DurationGroups>)
    ensures g.None? <==> forall i :: 0 <= i < |s| ==> !IsClockChar(s[i])
  {
    var p := FirstClock(s);
    if p < 0 then None
    else
      assert s[p..][0] == s[p];
      var g := DurationAt(s[p..]);
      Some(g)
  }

  /** The match that starts at the first character of t, a digit or a colon. */
  function DurationAt(t: string): (g: DurationGroups)
    requires |t| > 0 && IsClockChar(t[0])
    ensures |g.clock| > 0 && (g.outer == "" <==> g.days == "")
    ensures AllDigits(g.days)
    ensures g.outer != "" ==> |g.outer| >= 2 && g.outer[|g.outer| - 2] == 'd'
  {
    var lead := if t[0] == ':' then 1 else 0;
    var k := DigitRun(t[lead..]);
    var after := lead + k + 2;
    if k > 0 && HasPrefix(t[lead + k..], "d ") && after < |t| && IsClockChar(t[after]) then
      assert t[lead..lead + k] == t[lead..][..k];
      assert t[..after][after - 2] == 'd' by {
        DayMarker(t[lead + k..]);
        assert t[lead + k..][0] == t[lead + k];
      }
      DurationGroups(t[..after], t[lead..lead + k], t[after..][..ClockRun(t[after..])])
    else
      DurationGroups("", "", t[..ClockRun(t)])
  }

  lemma DayMarker(u: string)
    requires HasPrefix(u, "d ")
    ensures u[0] == 'd'
  {
    assert u[..2][0] == u[0];
  }

  /** One field as the loop reads it: ParseUint(f, 10, 32), 0 on any error. */
  function FieldValue(f: string): (v: nat)
    ensures |f| > 0 && AllDigits(f) && DigitsValue(f) < Limit32 ==> v == DigitsValue(f)
    ensures !AllDigits(f) ==> v == 0
  {
    var u := ParseUint(f, Limit32);
    if u.err.None? then u.value else 0
  }

  function Pow60(n: nat): (r: nat)
    ensures r >= 1
  {
    if n == 0 then 1 else 60 * Pow60(n - 1)
  }

  /** Fields in base 60, most significant first: the sum of field_i * 60^(k-1-i). */
  function Weighted(fs: seq<string>): nat
  {
    if |fs| == 0 then 0 else FieldValue(fs[0]) * Pow60(|fs| - 1) + Weighted(fs[1..])
  }

  /** The colon loop: from the last field to the first, each field times a
      multiplier that grows by 60 per step. */
  method ColonSeconds(text: string) returns (total: nat)
    ensures total == Weighted(Split(text, ':'))
  {
    var fields := Split(text, ':');
    total := 0;
    var multi := 1;
    var i := |fields| - 1;
    while i >= 0
      invariant -1 <= i < |fields|
      invariant multi == Pow60(|fields| - 1 - i)
      invariant total == Weighted(fields[i + 1..])
    {
      WeightedStep(fields, i);
      total := total + FieldValue(fields[i]) * multi;
      multi := multi * 60;
      i := i - 1;
    }
    assert fields[0..] == fields;
  }

  /** Peeling field i off the suffix from i: it weighs 60 to the number of fields
      after it. */
  lemma WeightedStep(fs: seq<string>, i: nat)
    requires i < |fs|
    ensures Weighted(fs[i..]) == FieldValue(fs[i]) * Pow60(|fs| - 1 - i) + Weighted(fs[i + 1..])
  {
    assert fs[i..][1..] == fs[i + 1..];
  }

  /** The accumulator as written: group 1 ("Nd ") is parsed as the day count, and
      the colon loop runs over group 2 (the day digits). */
  function ConnectedAsWritten(s: string): nat
  {
    match DurationMatch(s)
    case None => 0
    case Some(g) =>
      (if g.outer != "" then FieldValue(g.outer) * 86400 else 0)
      + (if g.days != "" then Weighted(Split(g.days, ':')) else 0)
  }

  /** The accumulator as intended: the day count times 86400 plus the clock fields. */
  function Duration(s: string): nat
  {
    match DurationMatch(s)
    case None => 0
    case Some(g) => (if g.days != "" then FieldValue(g.days) * 86400 else 0) + Weighted(Split(g.clock, ':'))
  }

  /** As written, the clock is never counted: the result is the day number when
      there is a day part and 0 otherwise. */
  lemma ConnectedIgnoresClock(s: string)
    requires DurationMatch(s).Some?
    ensures ConnectedAsWritten(s) == (if DurationMatch(s).value.days != "" then FieldValue(DurationMatch(s).value.days) else 0)
  {
    var g := DurationMatch(s).value;
    if g.outer != "" {
      assert FieldValue(g.outer) == 0 by {
        assert !IsDigit(g.outer[|g.outer| - 2]);
      }
      assert Weighted(Split(g.days, ':')) == FieldValue(g.days) by {
        NoDigitIs(g.days, ':');
        SplitNone(g.days, ':');
        WeightedOne(g.days);
      }
    }
  }

  lemma WeightedOne(f: string)
    ensures Weighted([f]) == FieldValue(f)
  {
    assert [f][1..] == [];
  }

  lemma WeightedThree(a: string, b: string, c: string)
    ensures Weighted([a, b, c]) == FieldValue(a) * 3600 + FieldValue(b) * 60 + FieldValue(c)
  {
    assert [a, b, c][1..] == [b, c];
    assert [b, c][1..] == [c];
    WeightedOne(c);
    assert Pow60(2) == 3600;
  }

  lemma OneDigit(f: string)
    requires |f| == 1 && IsDigit(f[0])
    ensures FieldValue(f) == DigitValue(f[0])
  {
    assert f[..|f| - 1] == [];
    assert DigitsValue(f) == DigitValue(f[0]);
  }

  lemma TwoDigits(f: string)
    requires |f| == 2 && AllDigits(f)
    ensures FieldValue(f) == DigitValue(f[0]) * 10 + DigitValue(f[1])
  {
    assert f[..1][..0] == [] && f[..1][0] == f[0] && f[..|f| - 1] == f[..1];
    assert DigitsValue(f[..1]) == DigitValue(f[0]);
    assert DigitsValue(f) == DigitValue(f[0]) * 10 + DigitValue(f[1]);
  }

  /** A text of three separator-free fields splits into those fields. */
  lemma SplitThree(a: string, b: string, c: string, sep: char)
    requires sep !in a && sep !in b && sep !in c
    ensures Split(a + [sep] + b + [sep] + c, sep) == [a, b, c]
  {
    SplitNone(c, sep);
    SplitAround(b, c, sep);
    SplitAround(a, b + [sep] + c, sep);
    assert a + [sep] + b + [sep] + c == a + [sep] + (b + [sep] + c);
  }

  /** "03:04:05" is 3 hours, 4 minutes and 5 seconds. */
  lemma ClockExample(c: string)
    requires c == "03:04:05"
    ensures Weighted(Split(c, ':')) == 11045
  {
    var h, m, sec := c[..2], c[3..5], c[6..];
    assert c == h + [':'] + m + [':'] + sec;
    assert h == "03" && m == "04" && sec == "05";
    SplitThree(h, m, sec, ':');
    assert FieldValue(h) == 3 by {
      TwoDigits(h);
    }
    assert FieldValue(m) == 4 by {
      TwoDigits(m);
    }
    assert FieldValue(sec) == 5 by {
      TwoDigits(sec);
    }
    WeightedThree(h, m, sec);
  }

  /** The first match of a text that starts with a digit and has no day part. */
  lemma MatchClockOnly(s: string)
    requires |s| > 0 && IsDigit(s[0]) && forall i :: 0 <= i < |s| ==> IsClockChar(s[i])
    requires 'd' !in s
    ensures DurationMatch(s) == Some(DurationGroups("", "", s))
  {
    assert FirstClock(s) == 0;
    assert s[0..] == s;
    var k := DigitRun(s);
    if k + 2 <= |s| {
      assert s[k] != 'd';
      assert !HasPrefix(s[k..], "d ");
    }
    assert ClockRun(s) == |s|;
    assert s[..|s|] == s;
  }

  /** A day number, "d ", then a clock. */
  lemma MatchWithDays(d: string, clock: string)
    requires |d| > 0 && AllDigits(d)
    requires |clock| > 0 && forall i :: 0 <= i < |clock| ==> IsClockChar(clock[i])
    ensures DurationMatch(d + "d " + clock) == Some(DurationGroups(d + "d ", d, clock))
  {
    var s := d + "d " + clock;
    assert IsClockChar(s[0]);
    assert FirstClock(s) == 0;
    assert s[0..] == s;
    assert DigitRun(s) == |d| by {
      DigitRunOf(d, "d " + clock);
      assert s == d + ("d " + clock);
    }
    assert s[|d|..] == "d " + clock;
    assert s[|d| + 2..] == clock;
    assert ClockRun(clock) == |clock|;
    assert clock[..|clock|] == clock;
    assert s[..|d| + 2] == d + "d ";
    assert s[0..|d|] == d;
  }

  lemma ClockChars(c: string)
    requires c == "03:04:05"
    ensures forall i :: 0 <= i < |c| ==> IsClockChar(c[i])
    ensures 'd' !in c
  {
  }

  /** The discrepancy without a day part: "03:04:05" should be 11045 seconds, the
      code gets 0. */
  lemma DurationFindingClock(s: string)
    requires s == "03:04:05"
    ensures ConnectedAsWritten(s) == 0 && Duration(s) == 11045
  {
    ClockChars(s);
    MatchClockOnly(s);
    ClockExample(s);
  }

  /** With a day part the code counts the day number as seconds and drops the
      clock; the intended value is days * 86400 plus the clock. */
  lemma DaysFinding(d: string, clock: string)
    requires |d| > 0 && AllDigits(d)
    requires |clock| > 0 && forall i :: 0 <= i < |clock| ==> IsClockChar(clock[i])
    ensures ConnectedAsWritten(d + "d " + clock) == FieldValue(d)
    ensures Duration(d + "d " + clock) == FieldValue(d) * 86400 + Weighted(Split(clock, ':'))
  {
    MatchWithDays(d, clock);
    ConnectedIgnoresClock(d + "d " + clock);
  }

  /** "2d 03:04:05" should be 183845 seconds, the code gets 2. */
  lemma DurationFindingDays(s: string)
    requires s == "2d 03:04:05"
    ensures ConnectedAsWritten(s) == 2 && Duration(s) == 183845
  {
    var d, clock := s[..1], s[3..];
    assert s == d + "d " + clock;
    assert FieldValue(d) == 2 by {
      assert d == "2";
      OneDigit(d);
    }
    assert clock == "03:04:05";
    ClockExample(clock);
    ClockChars(clock);
    DaysFinding(d, clock);
  }

  // ----- Rows of the torrent list -----

  /** Every row but the header (Each with index 0 skipped). */
  function Body(rows: seq<Row>): (b: seq<Row>)
    ensures |b| == if |rows| == 0 then 0 else |rows| - 1
    ensures forall i :: 0 <= i < |b| ==> b[i] == rows[i + 1]
  {
    if |rows| == 0 then [] else rows[1..]
  }

  /** Reading one more row after the header adds it to the body. */
  lemma BodySnoc(rows: seq<Row>, i: nat)
    requires 1 <= i < |rows|
    ensures Body(rows[..i + 1]) == Body(rows[..i]) + [rows[i]]
  {
    assert rows[..i + 1][1..] == rows[..i][1..] + [rows[i]];
  }

  /** A number matched by `lit(\d+)`: 0 when there is no match, a range error
      when the digits are too many for 32 bits. */
  function Capture(s: string, lit: string): Result<int, NumError>
  {
    match Find(s, LitDigits(lit))
    case None => Ok(0)
    case Some(caps) =>
      LitDigitsGroups(lit);
      var n := ParseInt32(caps[0]);
      if n.err.Some? then Err(n.err.value) else Ok(n.value)
  }

  /** The number right after the literal is the one captured. */
  lemma CaptureDigits(lit: string, d: string, rest: string)
    requires |d| > 0 && AllDigits(d) && DigitsValue(d) < Cutoff32
    requires |rest| > 0 ==> !IsDigit(rest[0])
    ensures Capture(lit + d + rest, lit) == Ok(DigitsValue(d))
  {
    FindLitDigits(lit, d, rest);
    ParseIntDigits(d, Cutoff32);
  }

  /** A count column: the text of the cell's first link as a 32-bit number. */
  function LinkNumber(c: Cell): Parsed
  {
    ParseInt32(FirstAnchorText(c))
  }

  /** The uploader column: the link's text when there is exactly one link, "anon"
      otherwise. */
  function Uploader(c: Cell): (u: string)
    ensures |c.anchors| == 1 ==> u == c.anchors[0].text
    ensures |c.anchors| != 1 ==> u == "anon"
  {
    if |c.anchors| == 1 then
      assert AnchorsText(c.anchors[1..]) == "" by { assert c.anchors[1..] == []; }
      assert c.anchors[0].text + "" == c.anchors[0].text;
      AnchorsText(c.anchors)
    else "anon"
  }

  /** parseTorrentEntry up to the date column. */
  function EntryHead(lib: Lib, cells: seq<Cell>): (r: Result<TorrentEntry, ParseError>)
    ensures FirstHref(CellAt(cells, 0)).None? ==> r == Err(MissingHref("typ"))
    ensures r.Ok? ==> FirstHref(CellAt(cells, 1)).Some?
    ensures r.Ok? ==> Capture(FirstHref(CellAt(cells, 0)).value, "browse.php?cat=") == Ok(r.value.category)
    ensures r.Ok? ==> Capture(FirstHref(CellAt(cells, 1)).value, "details.php?id=") == Ok(r.value.id)
    ensures r.Ok? ==> r.value.name == CellAt(cells, 1).anchors[0].title.GetOr(CellAt(cells, 1).anchors[0].text)
    ensures r.Ok? ==> r.value.fileCount == LinkNumber(CellAt(cells, 2)).value
    ensures r.Ok? ==> r.value.commentCount == LinkNumber(CellAt(cells, 3)).value
    ensures r.Ok? ==> Some(r.value.added) == lib.parseTime(ListLayout, CellAt(cells, 4).text)
  {
    var typ := FirstHref(CellAt(cells, 0));
    var link := CellAt(cells, 1);
    if typ.None? then Err(MissingHref("typ"))
    else
      var cat := Capture(typ.value, "browse.php?cat=");
      if cat.Err? then Err(BadNumber(cat.error))
      else if FirstHref(link).None? then Err(MissingHref("name"))
      else
        var id := Capture(FirstHref(link).value, "details.php?id=");
        if id.Err? then Err(BadNumber(id.error))
        else
          var name := link.anchors[0].title.GetOr(link.anchors[0].text);
          var files := LinkNumber(CellAt(cells, 2));
          var comments := LinkNumber(CellAt(cells, 3));
          if files.err.Some? then Err(BadNumber(files.err.value))
          else if comments.err.Some? then Err(BadNumber(comments.err.value))
          else match lib.parseTime(ListLayout, CellAt(cells, 4).text)
            case None => Err(BadTime(CellAt(cells, 4).text))
            case Some(added) =>
              Ok(EmptyEntry.(id := id.value, name := name, category := cat.value,
                fileCount := files.value, commentCount := comments.value, added := added))
  }

  /** A row Go can read without a panic: when the columns before the size parse,
      the size column has its comma. */
  predicate EntryShaped(lib: Lib, cells: seq<Cell>)
  {
    EntryHead(lib, cells).Ok? ==> SizeShaped(CellAt(cells, 6).text)
  }

  /** parseTorrentEntry: one row of the list as a torrent, or why it is not one. */
  function ParseTorrentEntry(lib: Lib, cells: seq<Cell>): (r: Result<TorrentEntry, ParseError>)
    requires EntryShaped(lib, cells)
    ensures EntryHead(lib, cells).Err? ==> r == EntryHead(lib, cells)
    ensures r.Ok? ==> EntryHead(lib, cells).Ok? && SizeCell(lib.units, CellAt(cells, 6).text).Ok?
    ensures r.Ok? ==>
      r.value.(size := 0, snatchCount := 0, seederCount := 0, leecherCount := 0, uploader := "") == EntryHead(lib, cells).value
    ensures r.Ok? ==> r.value.size == SizeCell(lib.units, CellAt(cells, 6).text).value
    ensures r.Ok? ==> r.value.snatchCount == LinkNumber(CellAt(cells, 8)).value
    ensures r.Ok? ==> r.value.seederCount == LinkNumber(CellAt(cells, 9)).value
    ensures r.Ok? ==> r.value.leecherCount == LinkNumber(CellAt(cells, 10)).value
    ensures r.Ok? ==> r.value.uploader == Uploader(CellAt(cells, 12))
  {
    match EntryHead(lib, cells)
    case Err(e) => Err(e)
    case Ok(te) =>
      match SizeCell(lib.units, CellAt(cells, 6).text)
      case Err(e) => Err(BadNumber(e))
      case Ok(size) =>
        var snatches := LinkNumber(CellAt(cells, 8));
        var seeders := LinkNumber(CellAt(cells, 9));
        var leechers := LinkNumber(CellAt(cells, 10));
        if snatches.err.Some? then Err(BadNumber(snatches.err.value))
        else if seeders.err.Some? then Err(BadNumber(seeders.err.value))
        else if leechers.err.Some? then Err(BadNumber(leechers.err.value))
        else
          Ok(te.(size := size, snatchCount := snatches.value, seederCount := seeders.value,
            leecherCount := leechers.value, uploader := Uploader(CellAt(cells, 12))))
  }

  predicate RowsShaped(lib: Lib, rows: seq<Row>)
  {
    forall i :: 0 <= i < |rows| ==> EntryShaped(lib, rows[i].cells)
  }

  /** The values of the results that are Ok, in order. */
  function OkValues<T, E>(rs: seq<Result<T, E>>): (vs: seq<T>)
    ensures |vs| <= |rs|
  {
    if |rs| == 0 then [] else (if rs[0].Ok? then [rs[0].value] else []) + OkValues(rs[1..])
  }

  lemma {:induction false} OkValuesAppend<T, E>(a: seq<Result<T, E>>, b: seq<Result<T, E>>)
    ensures OkValues(a + b) == OkValues(a) + OkValues(b)
  {
    if |a| == 0 {
      assert a + b == b;
    } else {
      assert (a + b)[0] == a[0];
      assert (a + b)[1..] == a[1..] + b;
      OkValuesAppend(a[1..], b);
      var h := if a[0].Ok? then [a[0].value] else [];
      assert OkValues(a + b) == h + OkValues(a[1..] + b);
      assert OkValues(a) == h + OkValues(a[1..]);
    }
  }

  lemma OkValuesOne<T, E>(r: Result<T, E>)
    ensures OkValues([r]) == if r.Ok? then [r.value] else []
  {
    assert [r][1..] == [];
  }

  /** f applied to every element, in order. */
  function MapSeq<A, B>(f: A --> B, xs: seq<A>): (ys: seq<B>)
    requires forall i :: 0 <= i < |xs| ==> f.requires(xs[i])
    ensures |ys| == |xs|
    ensures forall i :: 0 <= i < |xs| ==> ys[i] == f(xs[i])
  {
    if |xs| == 0 then [] else [f(xs[0])] + MapSeq(f, xs[1..])
  }

  lemma MapSeqSplit<A, B>(f: A --> B, a: seq<A>, r: A, b: seq<A>)
    requires forall i :: 0 <= i < |a| ==> f.requires(a[i])
    requires forall i :: 0 <= i < |b| ==> f.requires(b[i])
    requires f.requires(r)
    ensures forall i :: 0 <= i < |a + [r] + b| ==> f.requires((a + [r] + b)[i])
    ensures MapSeq(f, a + [r] + b) == MapSeq(f, a) + [f(r)] + MapSeq(f, b)
  {
    var s := a + [r] + b;
    assert forall i :: 0 <= i < |s| ==> s[i] == if i < |a| then a[i] else if i == |a| then r else b[i - |a| - 1];
  }

  /** parseTorrentEntry as a value, for a row Go can read. */
  function RowParser(lib: Lib): (Row --> Result<TorrentEntry, ParseError>)
  {
    (r: Row) requires EntryShaped(lib, r.cells) => ParseTorrentEntry(lib, r.cells)
  }

  /** The result of every row, in order. */
  function RowResults(lib: Lib, rows: seq<Row>): (rs: seq<Result<TorrentEntry, ParseError>>)
    requires RowsShaped(lib, rows)
    ensures |rs| == |rows|
    ensures forall i :: 0 <= i < |rows| ==> rs[i] == ParseTorrentEntry(lib, rows[i].cells)
  {
    MapSeq(RowParser(lib), rows)
  }

  /** The entries of a run of rows: the rows that parse, in order. */
  function RowEntries(lib: Lib, rows: seq<Row>): seq<TorrentEntry>
    requires RowsShaped(lib, rows)
  {
    OkValues(RowResults(lib, rows))
  }

  /** A value is kept exactly when it is the value of an Ok result. */
  lemma {:induction false} OkValuesMember<T, E>(rs: seq<Result<T, E>>, x: T)
    ensures x in OkValues(rs) <==> Ok(x) in rs
  {
    if |rs| > 0 {
      OkValuesMember(rs[1..], x);
      assert rs == [rs[0]] + rs[1..];
    }
  }

  lemma OkValuesSplit<T, E>(a: seq<Result<T, E>>, r: Result<T, E>, b: seq<Result<T, E>>)
    ensures OkValues(a + [r] + b) == OkValues(a) + (if r.Ok? then [r.value] else []) + OkValues(b)
  {
    OkValuesAppend(a + [r], b);
    OkValuesAppend(a, [r]);
    OkValuesOne(r);
  }

  /** An entry is listed exactly when some row parses to it. */
  lemma RowEntriesMember(lib: Lib, rows: seq<Row>, e: TorrentEntry)
    requires RowsShaped(lib, rows)
    ensures e in RowEntries(lib, rows) <==> exists i :: 0 <= i < |rows| && RowResults(lib, rows)[i] == Ok(e)
  {
    OkValuesMember(RowResults(lib, rows), e);
  }

  /** A torrent table is one whose first cell reads "Typ". */
  predicate IsTorrentTable(t: Table)
  {
    FirstTdText(t.rows) == "Typ"
  }

  predicate TablesShaped(lib: Lib, tables: seq<Table>)
  {
    forall i :: 0 <= i < |tables| ==> RowsShaped(lib, Body(tables[i].rows))
  }

  /** The entries of a list page: the rows after the header of every torrent table,
      in document order, without the rows that do not parse. */
  function ListEntries(lib: Lib, tables: seq<Table>): seq<TorrentEntry>
    requires TablesShaped(lib, tables)
  {
    if |tables| == 0 then []
    else
      var k := |tables| - 1;
      assert TablesShaped(lib, tables[..k]) by {
        assert forall i :: 0 <= i < k ==> tables[..k][i] == tables[i];
      }
      ListEntries(lib, tables[..k]) + (if IsTorrentTable(tables[k]) then RowEntries(lib, Body(tables[k].rows)) else [])
  }

  /** The row loop of parseTorrentList: every element through f, in order, the Ok
      values sent on and the errors logged and skipped. */
  method SendOks<A, B, E>(f: A --> Result<B, E>, xs: seq<A>) returns (sent: seq<B>)
    requires forall i :: 0 <= i < |xs| ==> f.requires(xs[i])
    ensures sent == OkValues(MapSeq(f, xs))
  {
    sent := [];
    var i := 0;
    while i < |xs|
      invariant 0 <= i <= |xs|
      invariant sent == OkValues(MapSeq(f, xs[..i]))
    {
      var r := f(xs[i]);
      assert xs[..i + 1] == xs[..i] + [xs[i]] + [];
      MapSeqSplit(f, xs[..i], xs[i], []);
      OkValuesSplit(MapSeq(f, xs[..i]), r, []);
      assert MapSeq(f, xs[..i]) + [r] + [] == MapSeq(f, xs[..i]) + [r];
      if r.Ok? {
        sent := sent + [r.value];
      }
      i := i + 1;
    }
    assert xs[..i] == xs;
  }

  /** parseTorrentList: every table, every row after the first, and only rows that
      parse, sent in order. */
  method ParseTorrentList(lib: Lib, tables: seq<Table>) returns (entries: seq<TorrentEntry>)
    requires TablesShaped(lib, tables)
    ensures entries == ListEntries(lib, tables)
  {
    entries := [];
    var t := 0;
    while t < |tables|
      invariant 0 <= t <= |tables|
      invariant TablesShaped(lib, tables[..t])
      invariant entries == ListEntries(lib, tables[..t])
    {
      assert tables[..t + 1][..t] == tables[..t];
      assert TablesShaped(lib, tables[..t + 1]) by {
        assert forall i :: 0 <= i < t + 1 ==> tables[..t + 1][i] == tables[i];
      }
      var rows := tables[t].rows;
      if FirstTdText(rows) == "Typ" {
        var found := SendOks(RowParser(lib), Body(rows));
        entries := entries + found;
      }
      t := t + 1;
    }
    assert tables[..t] == tables;
  }

  // ----- The file list -----

  /** One row of the file table: name, then size. */
  function FileOf(units: Units, cells: seq<Cell>): (f: TorrentFile)
    ensures f.name == CellAt(cells, 0).text
    ensures f.size == StringToDatasize(units, CellAt(cells, 1).text)
  {
    TorrentFile(CellAt(cells, 0).text, StringToDatasize(units, CellAt(cells, 1).text))
  }

  /** FileOf on a row. */
  function FileParser(units: Units): Row -> TorrentFile
  {
    (r: Row) => FileOf(units, r.cells)
  }

  /** parseFileList: one file per row after the header, in order; it has no error
      case. */
  method ParseFileList(units: Units, rows: seq<Row>) returns (files: seq<TorrentFile>)
    ensures files == MapSeq(FileParser(units), Body(rows))
  {
    files := [];
    var i := 0;
    while i < |rows|
      invariant 0 <= i <= |rows|
      invariant files == MapSeq(FileParser(units), Body(rows[..i]))
    {
      if i == 0 {
        i := i + 1;
        continue;
      }
      var cells := rows[i].cells;
      var file := TorrentFile(CellAt(cells, 0).text, StringToDatasize(units, CellAt(cells, 1).text));
      BodySnoc(rows, i);
      MapSeqStep(FileParser(units), Body(rows[..i]), rows[i], files, file);
      files := files + [file];
      i := i + 1;
    }
    assert rows[..i] == rows;
  }

  // ----- The peer lists -----

  /** Column 0: the text of the links, or of the cell when it has none. */
  function PeerName(c: Cell): (n: string)
    ensures |c.anchors| == 0 ==> n == c.text
  {
    if |c.anchors| > 0 then AnchorsText(c.anchors) else c.text
  }

  /** Column 7: the completion from the div's title. The first "%" goes before the
      title is known to exist, the second after. */
  function Completion(c: Cell): (d: Decimal)
    ensures c.divTitle.None? ==> d == DecimalZero
    ensures c.divTitle.Some? ==>
      d == ParseDecimal(ReplaceFirst(ReplaceFirst(c.divTitle.value, "%", ""), "%", "")).GetOr(DecimalZero)
  {
    var val := ReplaceFirst(c.divTitle.GetOr(""), "%", "");
    if c.divTitle.Some? then ParseDecimal(ReplaceFirst(val, "%", "")).GetOr(DecimalZero)
    else DecimalZero
  }

  /** One row of a peer table. The connection time is computed by parsePeerList but
      never stored, so `connected` keeps the zero of the reset peer, like `idle`. */
  function PeerOf(units: Units, cells: seq<Cell>): (p: Peer)
    ensures p.seeder <==> CellAt(cells, 7).divTitle.Some? && TruncToInt(p.completed) == 100
    ensures p.connected == 0 && p.idle == 0
  {
    var completed := Completion(CellAt(cells, 7));
    Peer(PeerName(CellAt(cells, 0)), CellAt(cells, 1).text == "Ja",
      CellAt(cells, 7).divTitle.Some? && TruncToInt(completed) == 100,
      StringToDatasize(units, CellAt(cells, 2).text),
      StringToDatasize(units, CellAt(cells, 4).text),
      StringToDatasize(units, TrimSuffix(CellAt(cells, 3).text, "/s")),
      StringToDatasize(units, TrimSuffix(CellAt(cells, 5).text, "/s")),
      RatioOf(CellAt(cells, 6).text, CellAt(cells, 6).font),
      completed, 0, 0, CellAt(cells, 10).text)
  }

  /** A seeder is a peer whose completion, from the div's title, lies in [100, 101). */
  lemma SeederIsComplete(units: Units, cells: seq<Cell>)
    requires !Completion(CellAt(cells, 7)).negative
    ensures PeerOf(units, cells).seeder <==>
      var d := Completion(CellAt(cells, 7));
      CellAt(cells, 7).divTitle.Some? && 100 * Pow10(d.scale) <= d.mantissa < 101 * Pow10(d.scale)
  {
    TruncToIntIs(Completion(CellAt(cells, 7)), 100);
  }

  /** The body of parsePeerList's row loop: the reset peer filled in column by
      column. The connection time is computed and then dropped. */
  method ParsePeerRow(units: Units, tds: seq<Cell>) returns (peer: Peer)
    ensures peer == PeerOf(units, tds)
  {
    peer := EmptyPeer;
    var td := CellAt(tds, 0);
    if |td.anchors| > 0 {
      peer := peer.(name := AnchorsText(td.anchors));
    } else {
      peer := peer.(name := td.text);
    }
    peer := peer.(connectable := CellAt(tds, 1).text == "Ja");
    peer := peer.(uploaded := StringToDatasize(units, CellAt(tds, 2).text));
    peer := peer.(ulrate := StringToDatasize(units, TrimSuffix(CellAt(tds, 3).text, "/s")));
    peer := peer.(downloaded := StringToDatasize(units, CellAt(tds, 4).text));
    peer := peer.(dlrate := StringToDatasize(units, TrimSuffix(CellAt(tds, 5).text, "/s")));
    td := CellAt(tds, 6);
    if td.text == "Inf." {
      peer := peer.(ratio := Infinite);
    } else if td.text == "---" {
      peer := peer.(ratio := Undefined);
    } else {
      peer := peer.(ratio := Value(ParseDecimal(td.font).GetOr(DecimalZero)));
    }
    var title := CellAt(tds, 7).divTitle;
    var val := ReplaceFirst(title.GetOr(""), "%", "");
    if title.Some? {
      val := ReplaceFirst(val, "%", "");
      peer := peer.(completed := ParseDecimal(val).GetOr(DecimalZero));
      if TruncToInt(peer.completed) == 100 {
        peer := peer.(seeder := true);
      }
    }
    var connected := 0;
    var m := DurationMatch(CellAt(tds, 8).text);
    if m.Some? {
      if m.value.outer != "" {
        connected := connected + FieldValue(m.value.outer) * 86400;
      }
      if m.value.days != "" {
        var seconds := ColonSeconds(m.value.days);
        connected := connected + seconds;
      }
    }
    peer := peer.(client := CellAt(tds, 10).text);
  }

  /** PeerOf on a row. */
  function PeerParser(units: Units): Row -> Peer
  {
    (r: Row) => PeerOf(units, r.cells)
  }

  /** MapSeq on one more element. */
  lemma MapSeqSnoc<A, B>(f: A --> B, xs: seq<A>, x: A)
    requires forall i :: 0 <= i < |xs| ==> f.requires(xs[i])
    requires f.requires(x)
    ensures forall i :: 0 <= i < |xs + [x]| ==> f.requires((xs + [x])[i])
    ensures MapSeq(f, xs + [x]) == MapSeq(f, xs) + [f(x)]
  {
    MapSeqSplit(f, xs, x, []);
    assert xs + [x] + [] == xs + [x];
    assert MapSeq(f, xs) + [f(x)] + MapSeq(f, []) == MapSeq(f, xs) + [f(x)];
  }

  /** A loop that maps a sequence element by element keeps its result equal to the
      map of the prefix it has read. */
  lemma MapSeqStep<A, B>(f: A --> B, xs: seq<A>, x: A, ys: seq<B>, y: B)
    requires forall i :: 0 <= i < |xs| ==> f.requires(xs[i])
    requires f.requires(x)
    requires ys == MapSeq(f, xs) && y == f(x)
    ensures forall i :: 0 <= i < |xs + [x]| ==> f.requires((xs + [x])[i])
    ensures ys + [y] == MapSeq(f, xs + [x])
  {
    MapSeqSnoc(f, xs, x);
  }

  /** parsePeerList: one peer per row after the header, in order. */
  method ParsePeerList(units: Units, rows: seq<Row>) returns (list: seq<Peer>)
    ensures list == MapSeq(PeerParser(units), Body(rows))
  {
    list := [];
    var i := 0;
    while i < |rows|
      invariant 0 <= i <= |rows|
      invariant list == MapSeq(PeerParser(units), Body(rows[..i]))
    {
      if i == 0 {
        i := i + 1;
        continue;
      }
      var peer := ParsePeerRow(units, rows[i].cells);
      BodySnoc(rows, i);
      MapSeqStep(PeerParser(units), Body(rows[..i]), rows[i], list, peer);
      list := list + [peer];
      i := i + 1;
    }
    assert rows[..i] == rows;
  }

  // ----- The snatch list -----

  /** The prefix the snatch columns put before their values. */
  const TorrentPrefix := "Torrent: "

  const SeedingNow := "Seedet im Moment"

  /** time.Parse with the detail layout, the epoch when it fails. */
  function DetailTime(lib: Lib, text: string): (t: Time)
    ensures lib.parseTime(DetailLayout, text).None? ==> t == Epoch
    ensures lib.parseTime(DetailLayout, text).Some? ==> t == lib.parseTime(DetailLayout, text).value
  {
    lib.parseTime(DetailLayout, text).GetOr(Epoch)
  }

  /** One row of the snatch table. */
  function SnatchOf(lib: Lib, cells: seq<Cell>): (s: Snatch)
    ensures s.name == AnchorsText(CellAt(cells, 0).anchors)
    ensures s.downloaded == StringToDatasize(lib.units, TrimPrefix(CellAt(cells, 1).bold, TorrentPrefix))
    ensures s.uploaded == StringToDatasize(lib.units, TrimPrefix(CellAt(cells, 2).bold, TorrentPrefix))
    ensures var t := TrimPrefix(CellAt(cells, 3).bold, TorrentPrefix); s.ratio == RatioOf(t, t)
    ensures s.completed == DetailTime(lib, CellAt(cells, 4).bold)
    ensures s.seeding <==> CellAt(cells, 5).font == SeedingNow
    ensures s.seeding ==> s.stopped == Epoch
    ensures !s.seeding ==> s.stopped == DetailTime(lib, CellAt(cells, 5).font)
  {
    var t := TrimPrefix(CellAt(cells, 3).bold, TorrentPrefix);
    var status := CellAt(cells, 5).font;
    Snatch(AnchorsText(CellAt(cells, 0).anchors),
      StringToDatasize(lib.units, TrimPrefix(CellAt(cells, 2).bold, TorrentPrefix)),
      StringToDatasize(lib.units, TrimPrefix(CellAt(cells, 1).bold, TorrentPrefix)),
      RatioOf(t, t),
      DetailTime(lib, CellAt(cells, 4).bold),
      if status == SeedingNow then Epoch else DetailTime(lib, status),
      status == SeedingNow)
  }

  /** The rows the snatch list reads: those after the header of the first table, or
      none when the page has no table. */
  function SnatchRows(tables: seq<Table>): seq<Row>
  {
    if |tables| == 0 then [] else Body(tables[0].rows)
  }

  /** The body of parseSnatches' row loop: a zero snatch filled in column by
      column. */
  method ParseSnatchRow(lib: Lib, tds: seq<Cell>) returns (snatch: Snatch)
    ensures snatch == SnatchOf(lib, tds)
  {
    snatch := Snatch("", 0, 0, Value(DecimalZero), Epoch, Epoch, false);
    snatch := snatch.(name := AnchorsText(CellAt(tds, 0).anchors));
    var t := CellAt(tds, 1).bold;
    snatch := snatch.(downloaded := StringToDatasize(lib.units, TrimPrefix(t, TorrentPrefix)));
    t := CellAt(tds, 2).bold;
    snatch := snatch.(uploaded := StringToDatasize(lib.units, TrimPrefix(t, TorrentPrefix)));
    t := TrimPrefix(CellAt(tds, 3).bold, TorrentPrefix);
    if t == "Inf." {
      snatch := snatch.(ratio := Infinite);
    } else if t == "---" {
      snatch := snatch.(ratio := Undefined);
    } else {
      snatch := snatch.(ratio := Value(ParseDecimal(t).GetOr(DecimalZero)));
    }
    snatch := snatch.(completed := lib.parseTime(DetailLayout, CellAt(tds, 4).bold).GetOr(Epoch));
    t := CellAt(tds, 5).font;
    if t == SeedingNow {
      snatch := snatch.(seeding := true);
    } else {
      snatch := snatch.(stopped := lib.parseTime(DetailLayout, t).GetOr(Epoch));
    }
  }

  /** SnatchOf on a row. */
  function SnatchParser(lib: Lib): Row -> Snatch
  {
    (r: Row) => SnatchOf(lib, r.cells)
  }

  /** parseSnatches: one snatch per row after the header of the first table, in
      order. */
  method ParseSnatches(lib: Lib, tables: seq<Table>) returns (snatches: seq<Snatch>)
    ensures snatches == MapSeq(SnatchParser(lib), SnatchRows(tables))
  {
    snatches := [];
    if |tables| == 0 {
      return;
    }
    var rows := tables[0].rows;
    var i := 0;
    while i < |rows|
      invariant 0 <= i <= |rows|
      invariant snatches == MapSeq(SnatchParser(lib), Body(rows[..i]))
    {
      if i == 0 {
        i := i + 1;
        continue;
      }
      var snatch := ParseSnatchRow(lib, rows[i].cells);
      BodySnoc(rows, i);
      MapSeqStep(SnatchParser(lib), Body(rows[..i]), rows[i], snatches, snatch);
      snatches := snatches + [snatch];
      i := i + 1;
    }
    assert rows[..i] == rows;
  }
}
