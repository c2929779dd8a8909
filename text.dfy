/** String helpers with the meaning of the Python string methods the system uses. */
module Text {

  /** `c.lower()` for ASCII letters; every other character is kept. */
  function LowerChar(c: char): (r: char)
    ensures 'A' <= c <= 'Z' ==> r as int == c as int + 32
    ensures !('A' <= c <= 'Z') ==> r == c
  {
    if 'A' <= c <= 'Z' then (c as int + 32) as char else c
  }

  function Lower(s: string): (r: string)
    ensures |r| == |s|
    ensures forall i :: 0 <= i < |s| ==> r[i] == LowerChar(s[i])
  {
    if |s| == 0 then [] else [LowerChar(s[0])] + Lower(s[1..])
  }

  /** `s.startswith(p)`. */
  predicate StartsWith(s: string, p: string)
  {
    |p| <= |s| && s[..|p|] == p
  }

  /** `sub in s`. */
  predicate Contains(s: string, sub: string)
    decreases |s|
  {
    StartsWith(s, sub) || (|s| > 0 && Contains(s[1..], sub))
  }

  /** The substring test agrees with the existence of a matching offset. */
  lemma {:induction false} ContainsAt(s: string, sub: string)
    ensures Contains(s, sub) <==> exists i :: 0 <= i <= |s| - |sub| && s[i..][..|sub|] == sub
    decreases |s|
  {
    if StartsWith(s, sub) {
      assert s[0..] == s;
      assert s[0..][..|sub|] == sub;
    }
    if |s| == 0 {
      if exists i :: 0 <= i <= |s| - |sub| && s[i..][..|sub|] == sub {
        assert |sub| == 0;
      }
    } else {
      ContainsAt(s[1..], sub);
      if Contains(s[1..], sub) {
        var i :| 0 <= i <= |s| - 1 - |sub| && s[1..][i..][..|sub|] == sub;
        assert s[i + 1..] == s[1..][i..];
      }
      if exists i :: 0 <= i <= |s| - |sub| && s[i..][..|sub|] == sub {
        var i :| 0 <= i <= |s| - |sub| && s[i..][..|sub|] == sub;
        if i > 0 {
          assert s[1..][i - 1..] == s[i..];
        } else {
          assert s[0..] == s;
        }
      }
    }
  }

  /** Number of (possibly overlapping) positions where `sub` occurs; used only for a non-empty `sub`. */
  function Occurrences(s: string, sub: string): (n: nat)
    requires |sub| > 0
    ensures n > 0 <==> Contains(s, sub)
    ensures n <= |s|
    decreases |s|
  {
    if |s| == 0 then 0
    else (if StartsWith(s, sub) then 1 else 0) + Occurrences(s[1..], sub)
  }

  /** `s.count(sep) + 1`: the number of pieces `s.split(sep)` makes for a single-character separator. */
  function SplitCount(s: string, sep: char): (n: nat)
    ensures n >= 1
    ensures n == 1 <==> sep !in s
  {
    if |s| == 0 then 1
    else (if s[0] == sep then 1 else 0) + SplitCount(s[1..], sep)
  }

  /**
   * `c.isspace()`: the characters Python treats as whitespace, namely the
   * ASCII controls 9 to 13 and 28 to 31, the space, and the Unicode
   * separators and spaces U+0085, U+00A0, U+1680, U+2000 to U+200A,
   * U+2028, U+2029, U+202F, U+205F and U+3000.
   */
  predicate IsSpace(c: char)
  {
    ('\t' <= c <= '\r') || ('\U{001C}' <= c <= ' ')
    || c == '\U{0085}' || c == '\U{00A0}' || c == '\U{1680}'
    || ('\U{2000}' <= c <= '\U{200A}') || c == '\U{2028}' || c == '\U{2029}'
    || c == '\U{202F}' || c == '\U{205F}' || c == '\U{3000}'
  }

  /** `s.strip()`. */
  function Strip(s: string): (r: string)
    ensures |r| <= |s|
    ensures |r| > 0 ==> !IsSpace(r[0]) && !IsSpace(r[|r| - 1])
    ensures (forall i :: 0 <= i < |s| ==> IsSpace(s[i])) <==> r == ""
    decreases |s|
  {
    if |s| == 0 then s
    else if IsSpace(s[0]) then Strip(s[1..])
    else if IsSpace(s[|s| - 1]) then Strip(s[..|s| - 1])
    else s
  }

  /** `s.split()`: the maximal runs of non-space characters, in order. */
  function Words(s: string): (ws: seq<string>)
    ensures forall i :: 0 <= i < |ws| ==> |ws[i]| > 0
    ensures forall i, j :: 0 <= i < |ws| && 0 <= j < |ws[i]| ==> !IsSpace(ws[i][j])
    decreases |s|
  {
    if |s| == 0 then []
    else if IsSpace(s[0]) then Words(s[1..])
    else
      var w := FirstWord(s);
      [w] + Words(s[|w|..])
  }

  function FirstWord(s: string): (w: string)
    requires |s| > 0 && !IsSpace(s[0])
    ensures 0 < |w| <= |s| && w == s[..|w|]
    ensures forall j :: 0 <= j < |w| ==> !IsSpace(w[j])
    ensures |w| < |s| ==> IsSpace(s[|w|])
    decreases |s|
  {
    if |s| == 1 || IsSpace(s[1]) then s[..1] else [s[0]] + FirstWord(s[1..])
  }

  /** Python's `a < b` on strings: lexicographic by code point, a proper prefix first. */
  predicate LexLess(a: string, b: string)
    decreases |a|
  {
    if |a| == 0 then |b| > 0
    else |b| > 0 && (if a[0] != b[0] then a[0] < b[0] else LexLess(a[1..], b[1..]))
  }

  lemma {:induction false} LexIrreflexive(a: string)
    ensures !LexLess(a, a)
    decreases |a|
  {
    if |a| > 0 {
      LexIrreflexive(a[1..]);
    }
  }

  lemma {:induction false} LexTransitive(a: string, b: string, c: string)
    requires LexLess(a, b) && LexLess(b, c)
    ensures LexLess(a, c)
    decreases |a|
  {
    if |a| > 0 && a[0] == b[0] && b[0] == c[0] {
      LexTransitive(a[1..], b[1..], c[1..]);
    }
  }

  lemma {:induction false} LexTotal(a: string, b: string)
    requires a != b
    ensures LexLess(a, b) || LexLess(b, a)
    decreases |a|
  {
    if |a| > 0 && |b| > 0 && a[0] == b[0] {
      assert a == [a[0]] + a[1..] && b == [b[0]] + b[1..];
      LexTotal(a[1..], b[1..]);
    }
  }

  /** The position `max(xs)` picks: it keeps the first of the largest strings. */
  function LexMaxIndex(xs: seq<string>): (r: nat)
    requires |xs| > 0
    ensures r < |xs|
  {
    if |xs| == 1 then 0
    else
      var p := LexMaxIndex(xs[..|xs| - 1]);
      if LexLess(xs[p], xs[|xs| - 1]) then |xs| - 1 else p
  }

  /** No string is above the one picked, and every string before it is strictly below it. */
  lemma {:induction false} LexMaxIndexIsFirstMax(xs: seq<string>)
    requires |xs| > 0
    ensures forall j :: 0 <= j < |xs| ==> !LexLess(xs[LexMaxIndex(xs)], xs[j])
    ensures forall j :: 0 <= j < LexMaxIndex(xs) ==> LexLess(xs[j], xs[LexMaxIndex(xs)])
  {
    if |xs| > 1 {
      var front := xs[..|xs| - 1];
      var last := xs[|xs| - 1];
      LexMaxIndexIsFirstMax(front);
      var p := LexMaxIndex(front);
      assert forall j :: 0 <= j < |front| ==> front[j] == xs[j];
      if LexLess(xs[p], last) {
        forall j | 0 <= j < |xs| - 1
          ensures LexLess(xs[j], last)
        {
          if xs[j] != xs[p] {
            LexTotal(xs[j], xs[p]);
            LexTransitive(xs[j], xs[p], last);
          }
        }
        forall j | 0 <= j < |xs|
          ensures !LexLess(last, xs[j])
        {
          if j == |xs| - 1 {
            LexIrreflexive(last);
          } else if LexLess(last, xs[j]) {
            LexTransitive(last, xs[j], last);
            LexIrreflexive(last);
          }
        }
      } else {
        assert LexMaxIndex(xs) == p;
        forall j | 0 <= j < |xs|
          ensures !LexLess(xs[p], xs[j])
        {
          if j < |xs| - 1 {
            assert front[j] == xs[j];
          }
        }
      }
    } else {
      LexIrreflexive(xs[0]);
    }
  }

  predicate IsDigit(c: char)
  {
    '0' <= c <= '9'
  }

  /** `str(n)` for a natural number: its decimal digits, most significant first, without leading zeros. */
  function NatToString(n: nat): (s: string)
    ensures |s| > 0 && forall i :: 0 <= i < |s| ==> IsDigit(s[i])
    ensures n >= 10 <==> |s| > 1
  {
    if n < 10 then [(48 + n) as char]
    else NatToString(n / 10) + [(48 + n % 10) as char]
  }

  /** `int(s)` for a string of decimal digits. */
  function ParseNat(s: string): nat
    requires forall i :: 0 <= i < |s| ==> IsDigit(s[i])
  {
    if |s| == 0 then 0
    else
      assert IsDigit(s[|s| - 1]);
      ParseNat(s[..|s| - 1]) * 10 + (s[|s| - 1] as int - 48)
  }

  /** `int(now * 1000)` for a non-negative clock reading: the milliseconds in generated ids. */
  function Millis(now: real): nat
    requires now >= 0.0
  {
    (now * 1000.0).Floor
  }

  /**
   * A generated id: `prefix` followed by the millisecond clock reading in
   * decimal, from which the reading can be read back.
   */
  function StampedId(prefix: string, now: real): (id: string)
    requires now >= 0.0
    ensures StartsWith(id, prefix) && |id| > |prefix|
    ensures forall i :: |prefix| <= i < |id| ==> IsDigit(id[i])
    ensures ParseNat(id[|prefix|..]) == Millis(now)
  {
    var id := prefix + NatToString(Millis(now));
    assert id[..|prefix|] == prefix;
    assert id[|prefix|..] == NatToString(Millis(now));
    NatToStringRoundTrip(Millis(now));
    id
  }

  /** Reading back the decimal digits of `n` gives `n`: distinct numbers have distinct strings. */
  lemma {:induction false} NatToStringRoundTrip(n: nat)
    ensures ParseNat(NatToString(n)) == n
  {
    if n >= 10 {
      NatToStringRoundTrip(n / 10);
      var s := NatToString(n);
      assert s[..|s| - 1] == NatToString(n / 10);
    }
  }
}
