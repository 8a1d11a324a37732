/** The parts of Go's `strings` and `bytes` packages that the client calls.
    Strings are sequences of characters and byte slices sequences of bytes; every
    function here is generic so that it serves both. */
module GoStrings {

  /** strings.HasPrefix */
  predicate HasPrefix<T(==)>(s: seq<T>, prefix: seq<T>)
  {
    |prefix| <= |s| && s[..|prefix|] == prefix
  }

  /** strings.HasSuffix */
  predicate HasSuffix<T(==)>(s: seq<T>, suffix: seq<T>)
  {
    |suffix| <= |s| && s[|s| - |suffix|..] == suffix
  }

  /** strings.TrimPrefix: drops `prefix` once if `s` starts with it. */
  function TrimPrefix<T(==)>(s: seq<T>, prefix: seq<T>): (r: seq<T>)
    ensures HasPrefix(s, prefix) ==> s == prefix + r
    ensures !HasPrefix(s, prefix) ==> r == s
  {
    if HasPrefix(s, prefix) then s[|prefix|..] else s
  }

  /** strings.TrimSuffix: drops `suffix` once if `s` ends with it. */
  function TrimSuffix<T(==)>(s: seq<T>, suffix: seq<T>): (r: seq<T>)
    ensures HasSuffix(s, suffix) ==> s == r + suffix
    ensures !HasSuffix(s, suffix) ==> r == s
  {
    if HasSuffix(s, suffix) then s[..|s| - |suffix|] else s
  }

  /** strings.Contains / bytes.Contains */
  predicate Contains<T(==)>(s: seq<T>, sub: seq<T>)
    decreases |s|
  {
    HasPrefix(s, sub) || (|s| > 0 && Contains(s[1..], sub))
  }

  /** `sub` occurs in `s` exactly when it starts at some position. */
  lemma {:induction false} ContainsAt<T>(s: seq<T>, sub: seq<T>)
    ensures Contains(s, sub) <==> exists i :: 0 <= i <= |s| && HasPrefix(s[i..], sub)
    decreases |s|
  {
    assert s[0..] == s;
    if |s| > 0 {
      ContainsAt(s[1..], sub);
      if Contains(s[1..], sub) {
        var i :| 0 <= i <= |s[1..]| && HasPrefix(s[1..][i..], sub);
        assert s[i + 1..] == s[1..][i..];
      }
      forall i | 1 <= i <= |s| && HasPrefix(s[i..], sub)
        ensures Contains(s[1..], sub)
      {
        assert s[1..][i - 1..] == s[i..];
      }
    }
  }

  /** strings.IndexByte: the first position of `c`, or -1. */
  function IndexOf<T(==)>(s: seq<T>, c: T): (i: int)
    ensures -1 <= i < |s|
    ensures i == -1 <==> c !in s
    ensures i >= 0 ==> s[i] == c && c !in s[..i]
  {
    if |s| == 0 then -1
    else if s[0] == c then 0
    else
      var j := IndexOf(s[1..], c);
      assert s[1..] == s[1..|s|];
      if j == -1 then -1
      else
        assert s[..j + 1] == [s[0]] + s[1..][..j];
        j + 1
  }

  /** strings.Count for a one-character substring: the number of occurrences. */
  function Count<T(==)>(s: seq<T>, c: T): nat
  {
    if |s| == 0 then 0 else (if s[0] == c then 1 else 0) + Count(s[1..], c)
  }

  lemma {:induction false} CountAppend<T>(a: seq<T>, b: seq<T>, c: T)
    ensures Count(a + b, c) == Count(a, c) + Count(b, c)
  {
    if |a| > 0 {
      assert (a + b)[1..] == a[1..] + b;
      CountAppend(a[1..], b, c);
    } else {
      assert a + b == b;
    }
  }

  lemma {:induction false} CountAbsent<T>(s: seq<T>, c: T)
    ensures Count(s, c) == 0 <==> c !in s
  {
    if |s| > 0 {
      CountAbsent(s[1..], c);
      assert s == [s[0]] + s[1..];
    }
  }

  /** strings.Replace(s, old, new, -1) with a non-empty `old`: every occurrence,
      scanned from the left and never overlapping, is replaced by `rep`. */
  function ReplaceAll<T(==)>(s: seq<T>, pat: seq<T>, rep: seq<T>): seq<T>
    requires |pat| > 0
    decreases |s|
  {
    if |s| == 0 then []
    else if HasPrefix(s, pat) then rep + ReplaceAll(s[|pat|..], pat, rep)
    else [s[0]] + ReplaceAll(s[1..], pat, rep)
  }

  /** strings.Replace(s, old, new, 1): only the first occurrence is replaced. */
  function ReplaceFirst<T(==)>(s: seq<T>, pat: seq<T>, rep: seq<T>): seq<T>
    requires |pat| > 0
    decreases |s|
  {
    if |s| == 0 then []
    else if HasPrefix(s, pat) then rep + s[|pat|..]
    else [s[0]] + ReplaceFirst(s[1..], pat, rep)
  }

  /** Text in which `pat` never occurs is left as it is. */
  lemma {:induction false} ReplaceAllAbsent<T>(s: seq<T>, pat: seq<T>, rep: seq<T>)
    requires |pat| > 0
    requires !Contains(s, pat)
    ensures ReplaceAll(s, pat, rep) == s
    decreases |s|
  {
    if |s| > 0 {
      ReplaceAllAbsent(s[1..], pat, rep);
      assert s == [s[0]] + s[1..];
    }
  }

  lemma {:induction false} ReplaceFirstAbsent<T>(s: seq<T>, pat: seq<T>, rep: seq<T>)
    requires |pat| > 0
    requires !Contains(s, pat)
    ensures ReplaceFirst(s, pat, rep) == s
    decreases |s|
  {
    if |s| > 0 {
      ReplaceFirstAbsent(s[1..], pat, rep);
      assert s == [s[0]] + s[1..];
    }
  }

  /** Replacing every occurrence of one element `c` by `rep` makes the text
      |rep| - 1 longer per occurrence. */
  lemma {:induction false} ReplaceOneLength<T>(s: seq<T>, c: T, rep: seq<T>)
    ensures |ReplaceAll(s, [c], rep)| == |s| + Count(s, c) * (|rep| - 1)
    decreases |s|
  {
    if |s| > 0 {
      ReplaceOneLength(s[1..], c, rep);
      ReplaceOneHead(s, c, rep);
      MulStep(Count(s[1..], c), |rep| - 1);
    }
  }

  /** Every other element `d` keeps its count, plus what the copies of `rep` bring. */
  lemma {:induction false} ReplaceOneCount<T>(s: seq<T>, c: T, rep: seq<T>, d: T)
    requires d != c
    ensures Count(ReplaceAll(s, [c], rep), d) == Count(s, d) + Count(s, c) * Count(rep, d)
    decreases |s|
  {
    if |s| > 0 {
      ReplaceOneCount(s[1..], c, rep, d);
      ReplaceOneHead(s, c, rep);
      var head := if s[0] == c then rep else [s[0]];
      CountAppend(head, ReplaceAll(s[1..], [c], rep), d);
      MulStep(Count(s[1..], c), Count(rep, d));
    }
  }

  lemma ReplaceOneHead<T>(s: seq<T>, c: T, rep: seq<T>)
    requires |s| > 0
    ensures ReplaceAll(s, [c], rep) == (if s[0] == c then rep else [s[0]]) + ReplaceAll(s[1..], [c], rep)
  {
    assert HasPrefix(s, [c]) <==> s[0] == c by {
      assert s[..1] == [s[0]];
    }
  }

  lemma MulStep(n: int, k: int)
    ensures (n + 1) * k == n * k + k
  {
  }


  /** Text without `c` is left as it is. */
  lemma {:induction false} ReplaceOneAbsent<T>(s: seq<T>, c: T, rep: seq<T>)
    requires c !in s
    ensures ReplaceAll(s, [c], rep) == s
    decreases |s|
  {
    if |s| > 0 {
      ReplaceOneAbsent(s[1..], c, rep);
      ReplaceOneHead(s, c, rep);
      assert s == [s[0]] + s[1..];
    }
  }

  /** A stretch of text without the pattern's first element is copied unchanged,
      and the scan goes on right after it. */
  lemma {:induction false} ReplacePlainPrefix<T>(a: seq<T>, x: seq<T>, pat: seq<T>, rep: seq<T>)
    requires |pat| > 0 && pat[0] !in a
    ensures ReplaceAll(a + x, pat, rep) == a + ReplaceAll(x, pat, rep)
    decreases |a|
  {
    if |a| == 0 {
      assert a + x == x;
    } else {
      assert (a + x)[0] == a[0] != pat[0];
      assert !HasPrefix(a + x, pat);
      assert (a + x)[1..] == a[1..] + x;
      ReplacePlainPrefix(a[1..], x, pat, rep);
      assert a == [a[0]] + a[1..];
    }
  }

  /** So text without the pattern's first element is left alone. */
  lemma ReplacePlain<T>(a: seq<T>, pat: seq<T>, rep: seq<T>)
    requires |pat| > 0 && pat[0] !in a
    ensures ReplaceAll(a, pat, rep) == a
  {
    ReplacePlainPrefix(a, [], pat, rep);
    assert a + [] == a;
  }

  /** An occurrence at the front is replaced and the scan resumes after it. */
  lemma ReplaceAtFront<T>(x: seq<T>, pat: seq<T>, rep: seq<T>)
    requires |pat| > 0
    ensures ReplaceAll(pat + x, pat, rep) == rep + ReplaceAll(x, pat, rep)
  {
    assert (pat + x)[..|pat|] == pat;
    assert (pat + x)[|pat|..] == x;
  }

  /** Text that starts like the pattern but does not continue like it is copied
      as far as the next possible start. */
  lemma ReplaceNearMiss<T>(t: seq<T>, x: seq<T>, pat: seq<T>, rep: seq<T>)
    requires |pat| > 0 && |t| > 0 && pat[0] !in t[1..]
    requires !HasPrefix(t + x, pat)
    ensures ReplaceAll(t + x, pat, rep) == t + ReplaceAll(x, pat, rep)
  {
    assert (t + x)[1..] == t[1..] + x;
    ReplacePlainPrefix(t[1..], x, pat, rep);
    assert t == [t[0]] + t[1..];
  }

  /** When `rep` does not hold `c`, no `c` is left. */
  lemma {:induction false} ReplaceOneGone<T>(s: seq<T>, c: T, rep: seq<T>)
    requires c !in rep
    ensures c !in ReplaceAll(s, [c], rep)
    decreases |s|
  {
    if |s| > 0 {
      ReplaceOneGone(s[1..], c, rep);
      if s[0] == c {
        assert HasPrefix(s, [c]);
      } else {
        assert !HasPrefix(s, [c]);
      }
    }
  }

  /** Replacing a single element distributes over concatenation. */
  lemma {:induction false} ReplaceOneAppend<T>(a: seq<T>, b: seq<T>, c: T, rep: seq<T>)
    ensures ReplaceAll(a + b, [c], rep) == ReplaceAll(a, [c], rep) + ReplaceAll(b, [c], rep)
    decreases |a|
  {
    if |a| == 0 {
      assert a + b == b;
    } else {
      assert (a + b)[1..] == a[1..] + b;
      ReplaceOneHead(a + b, c, rep);
      ReplaceOneHead(a, c, rep);
      ReplaceOneAppend(a[1..], b, c, rep);
    }
  }

  /** The first occurrence of a single element is the one replaced. */
  lemma {:induction false} ReplaceFirstAt<T>(a: seq<T>, b: seq<T>, c: T, rep: seq<T>)
    requires c !in a
    ensures ReplaceFirst(a + [c] + b, [c], rep) == a + rep + b
    decreases |a|
  {
    var s := a + [c] + b;
    if |a| == 0 {
      assert s == [c] + b;
      assert HasPrefix(s, [c]) && s[1..] == b;
    } else {
      assert s[0] == a[0] != c;
      assert !HasPrefix(s, [c]);
      assert s[1..] == a[1..] + [c] + b;
      ReplaceFirstAt(a[1..], b, c, rep);
      assert a == [a[0]] + a[1..];
    }
  }

  /** strings.Split with a one-character separator. */
  function Split<T(==)>(s: seq<T>, sep: T): (parts: seq<seq<T>>)
    ensures |parts| == Count(s, sep) + 1
    ensures forall i :: 0 <= i < |parts| ==> sep !in parts[i]
  {
    if |s| == 0 then [[]]
    else
      var rest := Split(s[1..], sep);
      if s[0] == sep then [[]] + rest
      else [[s[0]] + rest[0]] + rest[1..]
  }

  /** Splitting text that holds no separator gives the text itself. */
  lemma {:induction false} SplitNone<T>(a: seq<T>, sep: T)
    requires sep !in a
    ensures Split(a, sep) == [a]
  {
    if |a| > 0 {
      SplitNone(a[1..], sep);
      assert a == [a[0]] + a[1..];
    }
  }

  /** The first piece ends at the first separator. */
  lemma {:induction false} SplitAround<T>(a: seq<T>, b: seq<T>, sep: T)
    requires sep !in a
    ensures Split(a + [sep] + b, sep) == [a] + Split(b, sep)
  {
    if |a| == 0 {
      assert a + [sep] + b == [sep] + b;
      assert ([sep] + b)[1..] == b;
    } else {
      var s := a + [sep] + b;
      assert s[1..] == a[1..] + [sep] + b;
      SplitAround(a[1..], b, sep);
      assert a == [a[0]] + a[1..];
    }
  }

  /** strings.Join with a one-character separator. */
  function Join<T>(parts: seq<seq<T>>, sep: T): seq<T>
  {
    if |parts| == 0 then []
    else if |parts| == 1 then parts[0]
    else parts[0] + [sep] + Join(parts[1..], sep)
  }

  /** Joining the pieces of a split gives the text back. */
  lemma {:induction false} JoinSplit<T>(s: seq<T>, sep: T)
    ensures Join(Split(s, sep), sep) == s
  {
    if |s| > 0 {
      JoinSplit(s[1..], sep);
      var rest := Split(s[1..], sep);
      if s[0] == sep {
        assert Split(s, sep) == [[]] + rest;
        assert Join([[]] + rest, sep) == [] + [sep] + Join(rest, sep) by {
          assert ([[]] + rest)[1..] == rest;
        }
      } else {
        var parts := [[s[0]] + rest[0]] + rest[1..];
        assert Split(s, sep) == parts;
        if |rest| == 1 {
          assert Join(rest, sep) == rest[0];
        } else {
          assert parts[1..] == rest[1..];
          assert Join(rest, sep) == rest[0] + [sep] + Join(rest[1..], sep);
        }
      }
    }
  }

  /** The first n pieces of a split, joined again, are the prefix of `s` that
      holds n - 1 separators; when pieces remain, a separator follows it. */
  lemma {:induction false} SplitPrefix<T>(s: seq<T>, sep: T, n: nat)
    requires 1 <= n <= |Split(s, sep)|
    ensures HasPrefix(s, Join(Split(s, sep)[..n], sep))
    ensures Count(Join(Split(s, sep)[..n], sep), sep) == n - 1
    ensures n < |Split(s, sep)| ==>
      |Join(Split(s, sep)[..n], sep)| < |s| && s[|Join(Split(s, sep)[..n], sep)|] == sep
  {
    var parts := Split(s, sep);
    JoinSplit(s, sep);
    JoinAppend(parts[..n], parts[n..], sep);
    assert parts[..n] + parts[n..] == parts;
    JoinCount(parts[..n], sep);
  }

  lemma {:induction false} JoinAppend<T>(a: seq<seq<T>>, b: seq<seq<T>>, sep: T)
    requires |a| > 0
    ensures |b| == 0 ==> Join(a + b, sep) == Join(a, sep)
    ensures |b| > 0 ==> Join(a + b, sep) == Join(a, sep) + [sep] + Join(b, sep)
  {
    if |b| == 0 {
      assert a + b == a;
    } else if |a| == 1 {
      assert (a + b)[1..] == b;
    } else {
      JoinAppend(a[1..], b, sep);
      assert (a + b)[1..] == a[1..] + b;
      var x, y, z := a[0], Join(a[1..], sep), Join(b, sep);
      assert Join(a + b, sep) == x + [sep] + (y + [sep] + z);
      assert Join(a, sep) == x + [sep] + y;
      assert x + [sep] + (y + [sep] + z) == (x + [sep] + y) + [sep] + z;
    }
  }

  /** Joining n separator-free pieces puts exactly n - 1 separators in. */
  lemma {:induction false} JoinCount<T>(parts: seq<seq<T>>, sep: T)
    requires |parts| > 0
    requires forall i :: 0 <= i < |parts| ==> sep !in parts[i]
    ensures Count(Join(parts, sep), sep) == |parts| - 1
  {
    CountAbsent(parts[0], sep);
    if |parts| > 1 {
      JoinCount(parts[1..], sep);
      CountAppend(parts[0] + [sep], Join(parts[1..], sep), sep);
      CountAppend(parts[0], [sep], sep);
    }
  }
}
