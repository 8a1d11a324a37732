/** The regular expressions the scrapers use, modelled as a small pattern language:
    literal text and `(\d+)` capture groups. Go's RE2 engine is leftmost-first and
    `\d+` is greedy; the matcher below takes the longest digit run and never backs
    off, which gives the same answer as Go whenever every group is last or followed
    by literal text starting with a non-digit (`Exact`). All patterns the client
    compiles from these two kinds of piece are of that shape. */
module Pattern {
  import opened Wrappers
  import opened GoStrings
  import opened GoStrconv

  datatype Piece = Lit(text: string) | Digits

  type Pattern = seq<Piece>

  /** Every `(\d+)` group ends the pattern or is followed by a literal that starts
      with a non-digit, so that the greedy run is the only way to go on. */
  predicate Exact(p: Pattern)
  {
    forall i :: 0 <= i < |p| && p[i].Digits? ==>
      i + 1 == |p| || (p[i + 1].Lit? && |p[i + 1].text| > 0 && !IsDigit(p[i + 1].text[0]))
  }

  /** The number of capture groups. */
  function Groups(p: Pattern): nat
  {
    if |p| == 0 then 0 else (if p[0].Digits? then 1 else 0) + Groups(p[1..])
  }

  /** The text a pattern matches once its groups are filled in. */
  function Render(p: Pattern, caps: seq<string>): string
    requires |caps| == Groups(p)
  {
    if |p| == 0 then []
    else if p[0].Lit? then p[0].text + Render(p[1..], caps)
    else caps[0] + Render(p[1..], caps[1..])
  }

  /** One match: the captured groups (Go's m[1:]) and the length of the whole match. */
  datatype Match = Match(captures: seq<string>, length: nat)

  predicate DigitCaptures(caps: seq<string>)
  {
    forall i :: 0 <= i < |caps| ==> |caps[i]| > 0 && AllDigits(caps[i])
  }

  /** `m` is a match of `p` at the start of `s`: one nonempty digit string per
      group, and the rendered pattern starts `s`. */
  predicate Fits(s: string, p: Pattern, m: Match)
  {
    && |m.captures| == Groups(p) && DigitCaptures(m.captures)
    && m.length == |Render(p, m.captures)| <= |s|
    && HasPrefix(s, Render(p, m.captures))
  }

  /** A match anchored at the start of `s`. */
  function MatchAt(s: string, p: Pattern): Option<Match>
    decreases |p|
  {
    if |p| == 0 then Some(Match([], 0))
    else match p[0]
      case Lit(t) =>
        if HasPrefix(s, t) then
          match MatchAt(s[|t|..], p[1..])
          case None => None
          case Some(m) => Some(Match(m.captures, |t| + m.length))
        else None
      case Digits =>
        var k := DigitRun(s);
        if k == 0 then None
        else match MatchAt(s[k..], p[1..])
          case None => None
          case Some(m) => Some(Match([s[..k]] + m.captures, k + m.length))
  }

  /** Whatever MatchAt returns is a match of the pattern at the start of the text. */
  lemma {:induction false} MatchAtFits(s: string, p: Pattern)
    ensures MatchAt(s, p).Some? ==> Fits(s, p, MatchAt(s, p).value)
    decreases |p|
  {
    if |p| > 0 {
      match p[0]
      case Lit(t) =>
        if HasPrefix(s, t) {
          MatchAtFits(s[|t|..], p[1..]);
          if MatchAt(s[|t|..], p[1..]).Some? {
            FitsAfterLit(s, p, MatchAt(s[|t|..], p[1..]).value);
          }
        }
      case Digits =>
        var k := DigitRun(s);
        if k > 0 {
          MatchAtFits(s[k..], p[1..]);
          if MatchAt(s[k..], p[1..]).Some? {
            FitsAfterDigits(s, p, k, MatchAt(s[k..], p[1..]).value);
          }
        }
    }
  }

  lemma FitsAfterLit(s: string, p: Pattern, m: Match)
    requires |p| > 0 && p[0].Lit? && HasPrefix(s, p[0].text)
    requires Fits(s[|p[0].text|..], p[1..], m)
    ensures Fits(s, p, Match(m.captures, |p[0].text| + m.length))
  {
    var t := p[0].text;
    assert s == t + s[|t|..];
  }

  lemma FitsAfterDigits(s: string, p: Pattern, k: nat, m: Match)
    requires |p| > 0 && p[0].Digits? && 0 < k <= |s| && AllDigits(s[..k])
    requires Fits(s[k..], p[1..], m)
    ensures Fits(s, p, Match([s[..k]] + m.captures, k + m.length))
  {
    var caps := [s[..k]] + m.captures;
    assert caps[1..] == m.captures;
    assert s == s[..k] + s[k..];
  }

  /** No match of `p` starts at position `q` of `s`. */
  predicate NoMatchAt(s: string, p: Pattern, q: nat)
    requires q <= |s|
  {
    MatchAt(s[q..], p).None?
  }

  /** The leftmost position at or after `from` where a match starts. */
  function Locate(s: string, p: Pattern, from: nat): (r: Option<nat>)
    requires from <= |s|
    ensures r.Some? ==> from <= r.value <= |s| && !NoMatchAt(s, p, r.value)
    ensures r.Some? ==> forall q :: from <= q < r.value ==> NoMatchAt(s, p, q)
    ensures r.None? ==> forall q :: from <= q <= |s| ==> NoMatchAt(s, p, q)
    decreases |s| - from
  {
    if !NoMatchAt(s, p, from) then Some(from)
    else if from == |s| then None
    else Locate(s, p, from + 1)
  }

  /** regexp.FindStringSubmatch: the groups of the leftmost match, or None. */
  function Find(s: string, p: Pattern): (r: Option<seq<string>>)
    ensures r.Some? ==> |r.value| == Groups(p) && DigitCaptures(r.value)
    ensures r.Some? ==> exists q :: 0 <= q <= |s| && HasPrefix(s[q..], Render(p, r.value))
    ensures r.None? ==> forall q :: 0 <= q <= |s| ==> NoMatchAt(s, p, q)
  {
    match Locate(s, p, 0)
    case Some(q) =>
      MatchAtFits(s[q..], p);
      Some(MatchAt(s[q..], p).value.captures)
    case None => None
  }

  /** regexp.FindAllStringSubmatch(s, -1): the groups of every match, left to right,
      each search resuming where the previous match ended. */
  function FindAll(s: string, p: Pattern): (r: seq<seq<string>>)
    ensures forall i :: 0 <= i < |r| ==> |r[i]| == Groups(p) && DigitCaptures(r[i])
  {
    FindAllFrom(s, p, 0)
  }

  function FindAllFrom(s: string, p: Pattern, from: nat): (r: seq<seq<string>>)
    requires from <= |s|
    ensures forall i :: 0 <= i < |r| ==> |r[i]| == Groups(p) && DigitCaptures(r[i])
    decreases |s| - from
  {
    match Locate(s, p, from)
    case None => []
    case Some(q) =>
      MatchAtFits(s[q..], p);
      var m := MatchAt(s[q..], p).value;
      if m.length == 0 then [m.captures]
      else [m.captures] + FindAllFrom(s, p, q + m.length)
  }

  /** A literal followed by one group, e.g. `details\.php\?id=(\d+)`. */
  function LitDigits(t: string): Pattern
  {
    [Lit(t), Digits]
  }

  lemma LitDigitsGroups(t: string)
    ensures Groups(LitDigits(t)) == 1
  {
    assert LitDigits(t)[1..] == [Digits];
    assert [Digits][1..] == [];
  }

  /** Where the literal is followed by a maximal digit run, the group is that run. */
  lemma MatchLitDigits(t: string, d: string, rest: string)
    requires |d| > 0 && AllDigits(d)
    requires |rest| > 0 ==> !IsDigit(rest[0])
    ensures MatchAt(t + d + rest, LitDigits(t)) == Some(Match([d], |t| + |d|))
  {
    MatchDigitsOnly(d, rest);
    MatchLitThen(t, d + rest, Match([d], |d|));
    assert t + d + rest == t + (d + rest);
  }

  lemma MatchLitThen(t: string, tail: string, m: Match)
    requires MatchAt(tail, [Digits]) == Some(m)
    ensures MatchAt(t + tail, LitDigits(t)) == Some(Match(m.captures, |t| + m.length))
  {
    var s := t + tail;
    assert s[..|t|] == t;
    assert s[|t|..] == tail;
    MatchLit(s, t, [Digits], m);
    assert LitDigits(t) == [Lit(t)] + [Digits];
  }

  lemma MatchLit(s: string, t: string, p: Pattern, m: Match)
    requires HasPrefix(s, t) && MatchAt(s[|t|..], p) == Some(m)
    ensures MatchAt(s, [Lit(t)] + p) == Some(Match(m.captures, |t| + m.length))
  {
    assert ([Lit(t)] + p)[1..] == p;
  }

  lemma MatchDigitsOnly(d: string, rest: string)
    requires |d| > 0 && AllDigits(d)
    requires |rest| > 0 ==> !IsDigit(rest[0])
    ensures MatchAt(d + rest, [Digits]) == Some(Match([d], |d|))
  {
    DigitRunOf(d, rest);
    assert (d + rest)[..|d|] == d;
    MatchDigitRun(d + rest, d);
  }

  lemma MatchDigitRun(s: string, d: string)
    requires DigitRun(s) == |d| > 0 && s[..|d|] == d
    ensures MatchAt(s, [Digits]) == Some(Match([d], |d|))
  {
    assert [Digits][1..] == [];
    assert MatchAt(s[|d|..], []) == Some(Match([], 0));
    assert [d] + [] == [d];
  }

  /** The digit run of d + rest is d when rest does not start with a digit. */
  lemma {:induction false} DigitRunOf(d: string, rest: string)
    requires AllDigits(d)
    requires |rest| > 0 ==> !IsDigit(rest[0])
    ensures DigitRun(d + rest) == |d|
  {
    if |d| > 0 {
      assert (d + rest)[1..] == d[1..] + rest;
      DigitRunOf(d[1..], rest);
      assert IsDigit(d[0]);
    }
  }

  /** So a text that starts with the literal and a number gives that number's digits. */
  lemma FindLitDigits(t: string, d: string, rest: string)
    requires |d| > 0 && AllDigits(d)
    requires |rest| > 0 ==> !IsDigit(rest[0])
    ensures Find(t + d + rest, LitDigits(t)) == Some([d])
  {
    MatchLitDigits(t, d, rest);
    assert (t + d + rest)[0..] == t + d + rest;
  }

  /** A match at the front is the leftmost one. */
  lemma FindAtStart(s: string, p: Pattern, m: Match)
    requires MatchAt(s, p) == Some(m)
    ensures Find(s, p) == Some(m.captures)
  {
    assert s[0..] == s;
  }

  /** A literal in front of text the rest of the pattern matches. */
  lemma MatchLitBefore(t: string, x: string, p: Pattern, m: Match)
    requires MatchAt(x, p) == Some(m)
    ensures MatchAt(t + x, [Lit(t)] + p) == Some(Match(m.captures, |t| + m.length))
  {
    assert (t + x)[..|t|] == t;
    assert (t + x)[|t|..] == x;
    MatchLit(t + x, t, p, m);
  }

  /** A maximal digit run in front of text the rest of the pattern matches. */
  /** Digits followed by a literal that does not start with a digit, in front of text
      the rest of the pattern matches. */
  lemma DigitsThenLit(d: string, a: string, y: string, p: Pattern, m: Match) returns (m': Match)
    requires |d| > 0 && AllDigits(d) && |a| > 0 && !IsDigit(a[0])
    requires MatchAt(y, p) == Some(m)
    ensures MatchAt(d + a + y, [Digits, Lit(a)] + p) == Some(m') && m'.captures == [d] + m.captures
  {
    MatchLitBefore(a, y, p, m);
    var m1 := Match(m.captures, |a| + m.length);
    MatchDigitsBefore(d, a + y, [Lit(a)] + p, m1);
    m' := Match([d] + m.captures, |d| + m1.length);
    assert [Digits] + ([Lit(a)] + p) == [Digits, Lit(a)] + p;
    assert d + (a + y) == d + a + y;
  }

  lemma MatchDigitsBefore(d: string, x: string, p: Pattern, m: Match)
    requires |d| > 0 && AllDigits(d)
    requires |x| > 0 ==> !IsDigit(x[0])
    requires MatchAt(x, p) == Some(m)
    ensures MatchAt(d + x, [Digits] + p) == Some(Match([d] + m.captures, |d| + m.length))
  {
    var s, q := d + x, [Digits] + p;
    assert DigitRun(s) == |d| by {
      DigitRunOf(d, x);
    }
    ConcatHalves(d, x);
    ConcatHalves([Digits], p);
    DigitsStep(s, q, |d|, m);
  }

  lemma ConcatHalves<T>(a: seq<T>, b: seq<T>)
    ensures (a + b)[..|a|] == a && (a + b)[|a|..] == b
  {
  }

  /** One step of MatchAt on a pattern that starts with a digit group. */
  lemma DigitsStep(s: string, q: Pattern, k: nat, m: Match)
    requires |q| > 0 && q[0] == Digits && DigitRun(s) == k > 0
    requires MatchAt(s[k..], q[1..]) == Some(m)
    ensures MatchAt(s, q) == Some(Match([s[..k]] + m.captures, k + m.length))
  {
  }
}
