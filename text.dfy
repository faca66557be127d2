// Python `str` operations the core relies on, over `seq<char>`.
module Text {
  import opened Wrappers

  /** The characters Python's `str.isspace` accepts (used by `strip()` and `split()`). */
  predicate IsSpace(c: char)
  {
    ('\t' <= c <= '\r') || ('\U{1C}' <= c <= ' ') || c == '\U{85}' || c == '\U{A0}'
    || c == '\U{1680}' || ('\U{2000}' <= c <= '\U{200A}') || c == '\U{2028}' || c == '\U{2029}'
    || c == '\U{202F}' || c == '\U{205F}' || c == '\U{3000}'
  }

  predicate IsAsciiDigit(c: char) { '0' <= c <= '9' }

  /** `s.startswith(p)` */
  predicate StartsWith(s: string, p: string)
  {
    |p| <= |s| && s[..|p|] == p
  }

  /** `sub in s` */
  predicate Contains(s: string, sub: string)
  {
    exists i :: 0 <= i <= |s| && StartsWith(s[i..], sub)
  }

  lemma {:induction false} ContainsAt(s: string, sub: string, i: nat)
    requires i + |sub| <= |s| && s[i..i + |sub|] == sub
    ensures Contains(s, sub)
  {
    assert StartsWith(s[i..], sub);
  }

  /** `s.lstrip()` */
  function LStrip(s: string): (r: string)
    ensures |r| <= |s|
  {
    if |s| > 0 && IsSpace(s[0]) then LStrip(s[1..]) else s
  }

  /** `lstrip` removes exactly the leading whitespace: what remains is a suffix that does
      not start with whitespace, and everything removed was whitespace. */
  lemma {:induction false} LStripMeaning(s: string)
    ensures var r := LStrip(s);
            r == s[|s| - |r|..] && (r == [] || !IsSpace(r[0]))
            && forall k :: 0 <= k < |s| - |r| ==> IsSpace(s[k])
  {
    if |s| > 0 && IsSpace(s[0]) {
      LStripMeaning(s[1..]);
      assert s[1..][|s| - 1 - |LStrip(s)|..] == s[|s| - |LStrip(s)|..];
      forall k | 1 <= k < |s| - |LStrip(s)| ensures IsSpace(s[k]) {
        assert s[1..][k - 1] == s[k];
      }
    }
  }

  /** `s.rstrip()` */
  function RStrip(s: string): (r: string)
    ensures |r| <= |s|
  {
    if |s| > 0 && IsSpace(s[|s| - 1]) then RStrip(s[..|s| - 1]) else s
  }

  /** `rstrip` removes exactly the trailing whitespace. */
  lemma {:induction false} RStripMeaning(s: string)
    ensures var r := RStrip(s);
            r == s[..|r|] && (r == [] || !IsSpace(r[|r| - 1]))
            && forall k :: |r| <= k < |s| ==> IsSpace(s[k])
  {
    if |s| > 0 && IsSpace(s[|s| - 1]) {
      RStripMeaning(s[..|s| - 1]);
      assert s[..|s| - 1][..|RStrip(s)|] == s[..|RStrip(s)|];
      forall k | |RStrip(s)| <= k < |s| - 1 ensures IsSpace(s[k]) {
        assert s[..|s| - 1][k] == s[k];
      }
    }
  }

  /** `s.strip()` */
  function Strip(s: string): (r: string)
    ensures |r| <= |s|
  {
    RStrip(LStrip(s))
  }

  /** `strip` leaves a piece of the text that neither starts nor ends with whitespace. */
  lemma StripMeaning(s: string)
    ensures var r := Strip(s);
            (r == [] || (!IsSpace(r[0]) && !IsSpace(r[|r| - 1])))
            && r == s[|s| - |LStrip(s)|..][..|r|]
  {
    var l := LStrip(s);
    var r := RStrip(l);
    LStripMeaning(s);
    RStripMeaning(l);
    if r != [] {
      assert r[0] == l[0];
    }
  }

  /** Text that neither starts nor ends with whitespace is its own `strip()`. */
  lemma StripNoOuterSpace(s: string)
    requires |s| > 0 && !IsSpace(s[0]) && !IsSpace(s[|s| - 1])
    ensures Strip(s) == s
  {
    assert LStrip(s) == s;
  }

  /** Stripping twice is stripping once. */
  lemma StripIdempotent(s: string)
    ensures Strip(Strip(s)) == Strip(s)
  {
    StripMeaning(s);
    if Strip(s) != [] {
      StripNoOuterSpace(Strip(s));
    }
  }

  /** Leading whitespace does not change `strip()`. */
  lemma StripLeadingSpace(d: string)
    ensures Strip(" " + d) == Strip(d)
  {
    assert (" " + d)[1..] == d;
    assert LStrip(" " + d) == LStrip(d);
  }

  /** `s.split()` with no separator: maximal runs of non-whitespace. */
  function Split(s: string): (r: seq<string>)
    ensures forall w :: w in r ==> |w| > 0 && forall k :: 0 <= k < |w| ==> !IsSpace(w[k])
    decreases |s|
  {
    var t := LStrip(s);
    LStripMeaning(s);
    if t == [] then [] else
      var n := WordLength(t);
      [t[..n]] + Split(t[n..])
  }

  /** Length of the leading non-whitespace run of `s`. */
  function WordLength(s: string): (n: nat)
    requires |s| > 0 && !IsSpace(s[0])
    ensures 0 < n <= |s|
    ensures forall k :: 0 <= k < n ==> !IsSpace(s[k])
    ensures n == |s| || IsSpace(s[n])
  {
    if |s| == 1 || IsSpace(s[1]) then 1 else 1 + WordLength(s[1..])
  }

  /** `s.replace(old, new)`: left-to-right, non-overlapping occurrences. */
  function Replace(s: string, pat: string, rep: string): (r: string)
    requires |pat| > 0
    ensures !Contains(s, pat) ==> r == s
    decreases |s|
  {
    if |s| == 0 then []
    else if StartsWith(s, pat) then
      assert StartsWith(s[0..], pat);
      rep + Replace(s[|pat|..], pat, rep)
    else
      NoMatchTail(s, pat);
      [s[0]] + Replace(s[1..], pat, rep)
  }

  lemma {:induction false} NoMatchTail(s: string, sub: string)
    requires |s| > 0
    ensures !Contains(s, sub) ==> !Contains(s[1..], sub)
  {
    if Contains(s[1..], sub) {
      var i :| 0 <= i <= |s[1..]| && StartsWith(s[1..][i..], sub);
      assert s[1..][i..] == s[i + 1..];
      assert StartsWith(s[i + 1..], sub);
    }
  }

  /** `s.isdigit()` restricted to ASCII digits; false on the empty string. */
  predicate IsDigits(s: string)
  {
    |s| > 0 && forall k :: 0 <= k < |s| ==> IsAsciiDigit(s[k])
  }

  /** The value of a run of ASCII digits (0 for the empty run). */
  function DigitsValue(s: string): (v: nat)
    requires forall k :: 0 <= k < |s| ==> IsAsciiDigit(s[k])
  {
    if |s| == 0 then 0
    else
      assert IsAsciiDigit(s[|s| - 1]);
      10 * DigitsValue(s[..|s| - 1]) + (s[|s| - 1] as int - '0' as int)
  }

  function Pow10(k: nat): (p: nat)
    ensures p >= 1
  {
    if k == 0 then 1 else 10 * Pow10(k - 1)
  }

  /** ASCII lower-casing of one character. */
  function LowerChar(c: char): (d: char)
    ensures !('A' <= c <= 'Z') ==> d == c
  {
    if 'A' <= c <= 'Z' then (c as int + 32) as char else c
  }

  /** `s.lower()` on ASCII letters; every other character is kept. */
  function Lower(s: string): (r: string)
    ensures |r| == |s| && forall k :: 0 <= k < |s| ==> r[k] == LowerChar(s[k])
  {
    if |s| == 0 then [] else [LowerChar(s[0])] + Lower(s[1..])
  }

  /** Splits an optional leading sign off `s`: (negative?, rest). */
  function Sign(s: string): (bool, string)
  {
    if |s| > 0 && (s[0] == '-' || s[0] == '+') then (s[0] == '-', s[1..]) else (false, s)
  }

  /** Python `int(s)` for decimal text: optional sign, ASCII digits, surrounding whitespace. */
  function ParseInt(s: string): (r: Option<int>)
    ensures IsDigits(s) ==> r == Some(DigitsValue(s))
  {
    var t := Strip(s);
    var (neg, body) := Sign(t);
    if IsDigits(body) then
      StripDigits(s);
      var v: int := DigitsValue(body);
      Some(if neg then -v else v)
    else None
  }

  lemma {:induction false} StripDigits(s: string)
    ensures IsDigits(s) ==> Strip(s) == s && Sign(s) == (false, s) && DecimalValue(s) == Some(DigitsValue(s) as real)
  {
    if IsDigits(s) {
      assert !IsSpace(s[0]) && !IsSpace(s[|s| - 1]);
      DigitRunAll(s);
    }
  }

  /** Python `float(s)` for plain decimal text: optional sign, digits with at most one '.',
      at least one digit, surrounding whitespace. */
  function ParseFloat(s: string): (r: Option<real>)
    ensures IsDigits(s) ==> r == Some(DigitsValue(s) as real)
  {
    var t := Strip(s);
    var (neg, body) := Sign(t);
    match DecimalValue(body)
    case None => None
    case Some(v) =>
      StripDigits(s);
      Some(if neg then -v else v)
  }

  /** Value of `digits[.digits]` with at least one digit, or None. */
  function DecimalValue(s: string): (r: Option<real>)
    ensures r.Some? ==> r.value >= 0.0
  {
    var n := DigitRun(s);
    if n == |s| then (if n == 0 then None else Some(DigitsValue(s) as real))
    else if s[n] != '.' then None
    else
      var frac := s[n + 1..];
      var m := DigitRun(frac);
      if m != |frac| || (n == 0 && m == 0) then None
      else Some(DigitsValue(s[..n]) as real + (DigitsValue(frac) as real) / (Pow10(m) as real))
  }

  lemma {:induction false} DigitRunAll(s: string)
    requires forall k :: 0 <= k < |s| ==> IsAsciiDigit(s[k])
    ensures DigitRun(s) == |s|
  {
    if |s| > 0 { DigitRunAll(s[1..]); }
  }

  /** Length of the leading run of ASCII digits. */
  function DigitRun(s: string): (n: nat)
    ensures n <= |s| && forall k :: 0 <= k < n ==> IsAsciiDigit(s[k])
    ensures n == |s| || !IsAsciiDigit(s[n])
  {
    if |s| > 0 && IsAsciiDigit(s[0]) then 1 + DigitRun(s[1..]) else 0
  }

  /** `float(text.replace(',', ''))`: an amount with thousands separators; None when the
      text does not parse. */
  function ParseAmount(text: string): Option<real>
  {
    ParseFloat(Replace(text, ",", ""))
  }

  /** Removing a single character leaves none of it behind. */
  lemma {:induction false} RemovedCharGone(s: string, c: char)
    ensures forall k :: 0 <= k < |Replace(s, [c], "")| ==> Replace(s, [c], "")[k] != c
    decreases |s|
  {
    if |s| > 0 {
      if StartsWith(s, [c]) {
        RemovedCharGone(s[1..], c);
      } else {
        RemovedCharGone(s[1..], c);
        assert s[0] != c;
      }
    }
  }

  /** A left-to-right search with early return: does any of `keys` occur in `s`? */
  function AnyContained(s: string, keys: seq<string>): bool
  {
    |keys| > 0 && (Contains(s, keys[0]) || AnyContained(s, keys[1..]))
  }

  lemma {:induction false} AnyContainedIff(s: string, keys: seq<string>)
    ensures AnyContained(s, keys) <==> exists i :: 0 <= i < |keys| && Contains(s, keys[i])
  {
    if |keys| > 0 {
      AnyContainedIff(s, keys[1..]);
      if exists i :: 0 <= i < |keys| && Contains(s, keys[i]) {
        var i :| 0 <= i < |keys| && Contains(s, keys[i]);
        if i > 0 {
          assert keys[1..][i - 1] == keys[i];
        }
      }
    }
  }

  /** Index of the first `c` in `s`, if any. */
  function FindChar(s: string, c: char): (r: Option<nat>)
    ensures r.Some? ==> r.value < |s| && s[r.value] == c && forall k :: 0 <= k < r.value ==> s[k] != c
    ensures r.None? ==> forall k :: 0 <= k < |s| ==> s[k] != c
  {
    if |s| == 0 then None
    else if s[0] == c then Some(0)
    else match FindChar(s[1..], c)
      case None => None
      case Some(j) => Some(j + 1)
  }

  /** A pattern whose first character does not occur is never replaced. */
  lemma {:induction false} ReplaceAbsent(s: string, pat: string, rep: string)
    requires |pat| > 0 && forall k :: 0 <= k < |s| ==> s[k] != pat[0]
    ensures Replace(s, pat, rep) == s
    decreases |s|
  {
    if |s| > 0 {
      ReplaceAbsent(s[1..], pat, rep);
    }
  }

  /** Removing a single character distributes over concatenation. */
  lemma {:induction false} ReplaceCharConcat(a: string, b: string, c: char, rep: string)
    ensures Replace(a + b, [c], rep) == Replace(a, [c], rep) + Replace(b, [c], rep)
    decreases |a|
  {
    if |a| > 0 {
      assert (a + b)[1..] == a[1..] + b && (a + b)[0] == a[0];
      ReplaceCharHead(a + b, c, rep);
      ReplaceCharHead(a, c, rep);
      ReplaceCharConcat(a[1..], b, c, rep);
      PrefixRegroup(if a[0] == c then rep else [a[0]], Replace(a[1..], [c], rep), Replace(b, [c], rep),
                    Replace(a + b, [c], rep), Replace(a[1..] + b, [c], rep), Replace(a, [c], rep));
    } else {
      assert a + b == b;
    }
  }

  lemma {:induction false} PrefixRegroup(h: string, x: string, y: string, whole: string, tail: string, part: string)
    requires whole == h + tail && tail == x + y && part == h + x
    ensures whole == part + y
  {
  }

  /** Removing a single character replaces the head or keeps it, then carries on with the tail. */
  lemma {:induction false} ReplaceCharHead(s: string, c: char, rep: string)
    requires |s| > 0
    ensures Replace(s, [c], rep) == (if s[0] == c then rep else [s[0]]) + Replace(s[1..], [c], rep)
  {
    assert StartsWith(s, [c]) <==> s[0] == c;
  }

  /** Deleting a character keeps only characters of the input. */
  lemma {:induction false} RemovedKeepsOthers(s: string, c: char)
    ensures forall k :: 0 <= k < |Replace(s, [c], "")| ==> Replace(s, [c], "")[k] in s
    decreases |s|
  {
    if |s| > 0 {
      RemovedKeepsOthers(s[1..], c);
      var rest := Replace(s[1..], [c], "");
      forall k | 0 <= k < |rest| ensures rest[k] in s {
        assert rest[k] in s[1..];
      }
    }
  }

  /** The decimal digits of `n`, without leading zeros. */
  function Digits(n: nat): (s: string)
    ensures IsDigits(s) && DigitsValue(s) == n
  {
    if n < 10 then [('0' as int + n) as char]
    else
      var s := Digits(n / 10) + [('0' as int + n % 10) as char];
      assert s[..|s| - 1] == Digits(n / 10);
      s
  }
}
