// The Naver Finance valuation scraper after the page has been fetched and parsed: the
// market-cap text in 조 (10^12 won) and 억 (10^8 won), the indicator rows of the tables,
// and the final gating of the result.
module NaverPer {
  import opened Wrappers
  import opened Text

  // --------------------------------------------------------------- market cap

  const Jo: char := '조'
  const Eok: char := '억'
  const EokWon: real := 100000000.0

  /** The text up to the first `c` and the text between it and the next `c` (or the end):
      the first two parts of `s.split(c)`. */
  function FirstTwoParts(s: string, c: char): (parts: (string, string))
    requires c in s
    ensures c !in parts.0 && c !in parts.1
    ensures |parts.0| + 1 + |parts.1| <= |s| && s[..|parts.0|] == parts.0 && s[|parts.0|] == c
    ensures s[|parts.0| + 1..|parts.0| + 1 + |parts.1|] == parts.1
    ensures |parts.0| + 1 + |parts.1| == |s| || s[|parts.0| + 1 + |parts.1|] == c
  {
    var i := FindChar(s, c).value;
    var rest := s[i + 1..];
    var second := match FindChar(rest, c) case Some(j) => rest[..j] case None => rest;
    assert FindChar(rest, c).Some? ==> s[i + 1 + |second|] == rest[|second|];
    (s[..i], second)
  }

  /** The market-cap conversion: with '조' the parts before and after it are 조 and 억
      (an empty 억 part counts as 0); with only '억' the number is 억; otherwise, or when a
      number does not parse, there is no market cap. */
  function MarketCap(text: string): (r: Option<real>)
    ensures Jo !in text && Eok !in text ==> r.None?
  {
    var mc := Strip(text);
    StripKeepsChars(text);
    if Jo in mc then JoAmount(WithoutMarks(mc))
    else if Eok in mc then EokAmount(WithoutMarks(mc))
    else None
  }

  /** The text with every '억' and every ',' deleted; a '조' survives. */
  function WithoutMarks(mc: string): (r: string)
    ensures Jo in mc ==> Jo in r
  {
    var r := Replace(Replace(mc, [Eok], ""), ",", "");
    if Jo in mc then JoSurvives(mc); r else r
  }

  /** The value of "<억 part>" once '억' and ',' are gone. */
  function EokAmount(cleaned: string): Option<real>
  {
    match ParseFloat(cleaned)
    case Some(b) => Some(b * EokWon)
    case None => None
  }

  /** The value of "<조 part>조<억 part>" once '억' and ',' are gone. */
  function JoAmount(cleaned: string): Option<real>
    requires Jo in cleaned
  {
    var parts := FirstTwoParts(cleaned, Jo);
    var trillion := ParseFloat(parts.0);
    var billion := if Strip(parts.1) != [] then ParseFloat(parts.1) else Some(0.0);
    if trillion.Some? && billion.Some? then Some((trillion.value * 10000.0 + billion.value) * EokWon)
    else None
  }

  /** Deleting '억' and ',' keeps every '조'. */
  lemma JoSurvives(mc: string)
    requires Jo in mc
    ensures Jo in Replace(Replace(mc, [Eok], ""), ",", "")
  {
    CharSurvivesRemoval(mc, Jo, Eok);
    CharSurvivesRemoval(Replace(mc, [Eok], ""), Jo, ',');
  }

  /** Deleting one character keeps every other character. */
  lemma CharSurvivesRemoval(s: string, keep: char, drop: char)
    requires keep != drop && keep in s
    ensures keep in Replace(s, [drop], "")
  {
    var i :| 0 <= i < |s| && s[i] == keep;
    var a, b := s[..i], s[i + 1..];
    var ra, rb := Replace(a, [drop], ""), Replace(b, [drop], "");
    assert Replace(s, [drop], "") == ra + [keep] + rb by {
      assert s == a + [keep] + b;
      ReplaceCharConcat(a + [keep], b, drop, "");
      ReplaceCharConcat(a, [keep], drop, "");
      KeptChar(keep, drop);
    }
    assert (ra + [keep] + rb)[|ra|] == keep;
  }

  lemma KeptChar(keep: char, drop: char)
    requires keep != drop
    ensures Replace([keep], [drop], "") == [keep]
  {
    assert !StartsWith([keep], [drop]);
    assert [keep][1..] == [];
  }

  /** Whitespace in front of a number does not change it. */
  lemma ParseFloatSkipsSpace(d: string)
    ensures ParseFloat(" " + d) == ParseFloat(d)
    ensures Strip(" " + d) == Strip(d)
  {
    assert (" " + d)[1..] == d;
    assert LStrip(" " + d) == LStrip(d);
  }

  /** Deleting a trailing '억' and the absent commas leaves the number text. */
  lemma DropTrailingEok(body: string)
    requires Eok !in body && ',' !in body
    ensures Replace(Replace(body + [Eok], [Eok], ""), ",", "") == body
  {
    ReplaceCharConcat(body, [Eok], Eok, "");
    assert Replace([Eok], [Eok], "") == [] by {
      assert StartsWith([Eok], [Eok]);
      assert [Eok][1..] == [];
    }
    ReplaceAbsent(body, [Eok], "");
    ReplaceAbsent(body, ",", "");
  }

  /** The split of `a + [c] + b` at `c` when neither side holds `c`. */
  lemma FirstTwoPartsOf(a: string, b: string, c: char)
    requires c !in a && c !in b
    ensures FirstTwoParts(a + [c] + b, c) == (a, b)
  {
    var s := a + [c] + b;
    assert s[|a|] == c;
    var f := FindChar(s, c);
    assert f.Some?;
    assert f.value == |a| by {
      assert forall k :: 0 <= k < |a| ==> s[k] == a[k];
    }
    assert s[..|a|] == a;
    assert s[|a| + 1..] == b;
    assert FindChar(b, c).None?;
  }

  lemma DigitsHaveNoMarks(d: string)
    requires IsDigits(d)
    ensures Jo !in d && Eok !in d && ',' !in d && !IsSpace(d[0]) && !IsSpace(d[|d| - 1])
    ensures Strip(d) == d && ParseFloat(d) == Some(DigitsValue(d) as real)
  {
    assert forall k :: 0 <= k < |d| ==> IsAsciiDigit(d[k]);
    StripDigits(d);
  }

  /** "<T>조 <B>억" is its own `strip()` and holds '조'. */
  lemma JoTextStripped(dt: string, db: string)
    requires IsDigits(dt) && IsDigits(db)
    ensures var s := dt + "조 " + db + "억";
            Strip(s) == s && Jo in s
  {
    var s := dt + "조 " + db + "억";
    DigitsHaveNoMarks(dt);
    assert s[0] == dt[0] && s[|s| - 1] == Eok;
    StripNoOuterSpace(s);
    assert s[|dt|] == Jo;
  }

  /** Deleting '억' and ',' from "<T>조 <B>억" leaves "<T>조 <B>". */
  lemma JoTextCleaned(dt: string, db: string)
    requires IsDigits(dt) && IsDigits(db)
    ensures Replace(Replace(dt + "조 " + db + "억", [Eok], ""), ",", "") == dt + [Jo] + (" " + db)
  {
    DigitsHaveNoMarks(dt);
    DigitsHaveNoMarks(db);
    var body := dt + [Jo] + (" " + db);
    assert dt + "조 " + db + "억" == body + [Eok];
    assert Eok !in body && ',' !in body by {
      assert forall k :: 0 <= k < |body| ==> body[k] == Jo || body[k] == ' ' || body[k] in dt || body[k] in db;
    }
    DropTrailingEok(body);
  }

  /** The 조 branch reads the two numbers of "<T>조 <B>" (of values x and y). */
  lemma JoTextAmount(dt: string, db: string, x: real, y: real)
    requires IsDigits(dt) && IsDigits(db) && x == DigitsValue(dt) as real && y == DigitsValue(db) as real
    ensures Jo in dt + [Jo] + (" " + db)
    ensures JoAmount(dt + [Jo] + (" " + db)) == Some((x * 10000.0 + y) * EokWon)
  {
    var b := " " + db;
    assert Jo !in dt && ParseFloat(dt) == Some(x) by { DigitsHaveNoMarks(dt); }
    assert Jo !in b && Strip(b) != [] && ParseFloat(b) == Some(y) by { SpacedDigits(db); }
    JoAmountOf(dt, b, x, y);
  }

  /** " <B>" holds no '조', is not blank, and reads as B. */
  lemma SpacedDigits(db: string)
    requires IsDigits(db)
    ensures Jo !in " " + db && Strip(" " + db) != [] && ParseFloat(" " + db) == Some(DigitsValue(db) as real)
  {
    DigitsHaveNoMarks(db);
    assert Jo !in " " + db by { assert forall k :: 0 <= k < |db| ==> (" " + db)[k + 1] == db[k]; }
    ParseFloatSkipsSpace(db);
  }

  /** The text "<T>조 <B>억" as shown for a large company, with T and B of values t and b,
      is read back as (t·10^4 + b)·10^8 won. */
  lemma JoTextRead(dt: string, db: string, t: nat, b: nat)
    requires IsDigits(dt) && IsDigits(db) && t == DigitsValue(dt) && b == DigitsValue(db)
    ensures MarketCap(dt + "조 " + db + "억") == Some((t as real * 10000.0 + b as real) * EokWon)
  {
    JoTextAmount(dt, db, t as real, b as real);
    JoTextTakesJoBranch(dt, db, Some((t as real * 10000.0 + b as real) * EokWon));
  }

  /** "<T>조 <B>억" is read as whatever the 조 branch makes of "<T>조 <B>". */
  lemma JoTextTakesJoBranch(dt: string, db: string, v: Option<real>)
    requires IsDigits(dt) && IsDigits(db) && Jo in dt + [Jo] + (" " + db)
    requires JoAmount(dt + [Jo] + (" " + db)) == v
    ensures MarketCap(dt + "조 " + db + "억") == v
  {
    JoTextStripped(dt, db);
    JoTextCleaned(dt, db);
    JoBranch(dt + "조 " + db + "억", dt + [Jo] + (" " + db), v);
  }

  /** The 조 branch on "<a>조<b>" with both parts numbers. */
  lemma JoAmountOf(a: string, b: string, x: real, y: real)
    requires Jo !in a && Jo !in b
    requires ParseFloat(a) == Some(x) && Strip(b) != [] && ParseFloat(b) == Some(y)
    ensures JoAmount(a + [Jo] + b) == Some((x * 10000.0 + y) * EokWon)
  {
    FirstTwoPartsOf(a, b, Jo);
  }

  /** "<B>억" is its own `strip()`, holds '억' and no '조'. */
  lemma EokTextStripped(db: string)
    requires IsDigits(db)
    ensures var s := db + "억";
            Strip(s) == s && Eok in s && Jo !in s
  {
    var s := db + "억";
    DigitsHaveNoMarks(db);
    assert s[0] == db[0] && s[|s| - 1] == Eok;
    StripNoOuterSpace(s);
    assert Jo !in s by {
      assert forall k :: 0 <= k < |s| ==> s[k] == Eok || s[k] == db[k];
    }
  }


  /** The text "<B>억" of a smaller company is read back as B·10^8 won. */
  lemma EokTextRead(db: string)
    requires IsDigits(db)
    ensures MarketCap(db + "억") == Some(DigitsValue(db) as real * EokWon)
  {
    var s := db + "억";
    EokTextStripped(db);
    EokTextCleaned(db);
    EokDigitsAmount(db);
    EokBranch(s);
  }

  /** Deleting '억' and ',' from "<B>억" leaves "<B>". */
  lemma EokTextCleaned(db: string)
    requires IsDigits(db)
    ensures WithoutMarks(db + "억") == db
  {
    DigitsHaveNoMarks(db);
    DropTrailingEok(db);
    WithoutMarksIs(db + "억");
  }

  /** "<B>" on its own is B·10^8 won. */
  lemma EokDigitsAmount(db: string)
    requires IsDigits(db)
    ensures EokAmount(db) == Some(DigitsValue(db) as real * EokWon)
  {
    DigitsHaveNoMarks(db);
    EokAmountOf(db, DigitsValue(db) as real);
  }

  lemma WithoutMarksIs(mc: string)
    ensures WithoutMarks(mc) == Replace(Replace(mc, [Eok], ""), ",", "")
  {
  }

  lemma EokAmountOf(cleaned: string, x: real)
    requires ParseFloat(cleaned) == Some(x)
    ensures EokAmount(cleaned) == Some(x * EokWon)
  {
  }

  /** Stripped text holding '억' but no '조' takes the 억 branch. */
  lemma EokBranch(s: string)
    requires Strip(s) == s && Jo !in s && Eok in s
    ensures MarketCap(s) == EokAmount(WithoutMarks(s))
  {
  }

  /** Stripped text holding '조' takes the 조 branch. */
  lemma JoBranch(s: string, w: string, v: Option<real>)
    requires Strip(s) == s && Jo in s && Replace(Replace(s, [Eok], ""), ",", "") == w
    requires Jo in w && JoAmount(w) == v
    ensures MarketCap(s) == v
  {
    WithoutMarksIs(s);
  }

  /** Every character left by `strip()` was in the text. */
  lemma StripKeepsChars(text: string)
    ensures forall k :: 0 <= k < |Strip(text)| ==> Strip(text)[k] in text
  {
    StripMeaning(text);
    LStripMeaning(text);
    var l := LStrip(text);
    var r := Strip(text);
    forall k | 0 <= k < |r| ensures r[k] in text {
      assert r[k] == text[|text| - |l| + k];
    }
  }

  /** The text "<T>조" with an empty 억 part, T of value t, is read back as t·10^4·10^8 won. */
  lemma JoOnlyTextRead(dt: string, t: nat)
    requires IsDigits(dt) && t == DigitsValue(dt)
    ensures MarketCap(dt + [Jo]) == Some(t as real * 10000.0 * EokWon)
  {
    var s, v := dt + [Jo], Some(t as real * 10000.0 * EokWon);
    assert Strip(s) == s && Jo in s by { JoOnlyTextStripped(dt); }
    assert Replace(Replace(s, [Eok], ""), ",", "") == s by { JoOnlyTextCleaned(dt); }
    assert JoAmount(s) == v by { JoOnlyAmount(dt, t as real); }
    JoBranch(s, s, v);
  }

  /** "<T>조" is its own `strip()` and holds '조'. */
  lemma JoOnlyTextStripped(dt: string)
    requires IsDigits(dt)
    ensures Strip(dt + [Jo]) == dt + [Jo] && Jo in dt + [Jo]
  {
    var s := dt + [Jo];
    DigitsHaveNoMarks(dt);
    assert s[0] == dt[0] && s[|s| - 1] == Jo;
    StripNoOuterSpace(s);
  }

  /** Deleting '억' and ',' from "<T>조" leaves it as it is. */
  lemma JoOnlyTextCleaned(dt: string)
    requires IsDigits(dt)
    ensures Replace(Replace(dt + [Jo], [Eok], ""), ",", "") == dt + [Jo]
  {
    var s := dt + [Jo];
    DigitsHaveNoMarks(dt);
    assert forall k :: 0 <= k < |s| ==> s[k] == Jo || s[k] == dt[k];
    ReplaceAbsent(s, [Eok], "");
    ReplaceAbsent(s, ",", "");
  }

  /** The 조 branch reads "<T>조" with its empty 억 part as 0 억. */
  lemma JoOnlyAmount(dt: string, x: real)
    requires IsDigits(dt) && x == DigitsValue(dt) as real
    ensures Jo in dt + [Jo] && JoAmount(dt + [Jo]) == Some(x * 10000.0 * EokWon)
  {
    DigitsHaveNoMarks(dt);
    assert dt + [Jo] == dt + [Jo] + [];
    FirstTwoPartsOf(dt, [], Jo);
    assert Strip([]) == [];
  }

  // ---------------------------------------------------------- indicator rows

  /** `s[i..e]` is a match of `\d+\.?\d*` and `s[e]` is '배': a digit first, then digits and
      at most one '.'. */
  predicate RatioMatch(s: string, i: nat, e: nat)
  {
    i < e < |s| && s[e] == '배' && IsAsciiDigit(s[i])
    && (forall k :: i <= k < e ==> IsAsciiDigit(s[k]) || s[k] == '.')
    && (forall k, l :: i <= k < l < e && s[k] == '.' ==> s[l] != '.')
  }

  /** End (the index of '배') of the `(\d+\.?\d*)배` match starting at `i`: the one there is,
      and none when there is none. */
  function RatioEnd(s: string, i: nat): (e: Option<nat>)
    ensures e.Some? ==> RatioMatch(s, i, e.value)
    ensures forall e': nat :: RatioMatch(s, i, e') ==> e == Some(e')
  {
    if i >= |s| || !IsAsciiDigit(s[i]) then None
    else
      var d := i + DigitRun(s[i..]);
      assert forall k :: i <= k < d ==> s[k] == s[i..][k - i];
      assert d < |s| ==> s[d] == s[i..][d - i];
      RatioMatchStopsAt(s, i, d);
      if d < |s| && s[d] == '배' then Some(d)
      else if d < |s| && s[d] == '.' then
        var e := d + 1 + DigitRun(s[d + 1..]);
        assert forall k :: d + 1 <= k < e ==> s[k] == s[d + 1..][k - d - 1];
        assert e < |s| ==> s[e] == s[d + 1..][e - d - 1];
        RatioMatchAfterPoint(s, i, d, e);
        if e < |s| && s[e] == '배' then Some(e) else None
      else None
  }

  /** A match from `i` runs over the digits that start at `i` and goes on only through a '.'. */
  lemma RatioMatchStopsAt(s: string, i: nat, d: nat)
    requires i <= d <= |s| && forall k :: i <= k < d ==> IsAsciiDigit(s[k])
    requires d == |s| || !IsAsciiDigit(s[d])
    ensures forall e: nat :: RatioMatch(s, i, e) ==> d == e || (d < e && s[d] == '.')
  {
  }

  /** After the '.' at `d`, a match from `i` ends exactly where the next digit run does. */
  lemma RatioMatchAfterPoint(s: string, i: nat, d: nat, e: nat)
    requires i < d < e <= |s| && s[d] == '.' && forall k :: d < k < e ==> IsAsciiDigit(s[k])
    requires e == |s| || !IsAsciiDigit(s[e])
    ensures forall e': nat :: RatioMatch(s, i, e') && d < e' ==> e' == e
  {
  }

  /** A match at `j` ending at `e`, with none starting before `j`. */
  ghost predicate LeftmostRatio(s: string, j: nat, e: nat)
  {
    RatioMatch(s, j, e) && forall j': nat, e': nat :: j' < j ==> !RatioMatch(s, j', e')
  }

  /** There is at most one leftmost match. */
  lemma LeftmostRatioUnique(s: string, j: nat, e: nat)
    requires LeftmostRatio(s, j, e)
    ensures forall j2: nat, e2: nat :: LeftmostRatio(s, j2, e2) ==> j2 == j && e2 == e
  {
    forall j2: nat, e2: nat | LeftmostRatio(s, j2, e2) ensures j2 == j && e2 == e {
      if j2 == j {
        assert RatioEnd(s, j) == Some(e) == Some(e2);
      }
    }
  }

  /** `re.search(r'(\d+\.?\d*)배', s)` from position `i` on: the start and the end (the '배')
      of the leftmost match that starts there or later, and none when there is none. */
  function RatioSearch(s: string, i: nat): (m: Option<(nat, nat)>)
    ensures m.Some? ==> i <= m.value.0 && RatioMatch(s, m.value.0, m.value.1)
                        && forall j: nat, e: nat :: i <= j < m.value.0 ==> !RatioMatch(s, j, e)
    ensures m.None? ==> forall j: nat, e: nat :: i <= j ==> !RatioMatch(s, j, e)
    decreases |s| - i
  {
    if i >= |s| then None
    else match RatioEnd(s, i)
      case Some(e) => Some((i, e))
      case None => RatioSearch(s, i + 1)
  }

  /** The group of the first `(\d+\.?\d*)배` match read as a float: the leftmost match's
      number, and none iff nothing matches. */
  function FirstRatio(s: string): (r: Option<real>)
    ensures r.Some? ==> r.value >= 0.0
    ensures r.None? <==> forall j: nat, e: nat :: !RatioMatch(s, j, e)
    ensures forall j: nat, e: nat :: LeftmostRatio(s, j, e) ==> r == ParseFloat(s[j..e])
  {
    match RatioSearch(s, 0)
    case None => None
    case Some((j, e)) =>
      MatchedRatioParses(s, j, e);
      LeftmostRatioUnique(s, j, e);
      ParseFloat(s[j..e])
  }

  /** The text of a match always reads as a float, and never a negative one. */
  lemma MatchedRatioParses(s: string, i: nat, e: nat)
    requires RatioMatch(s, i, e)
    ensures ParseFloat(s[i..e]).Some? && ParseFloat(s[i..e]).value >= 0.0
  {
    var t := s[i..e];
    assert forall k :: 0 <= k < |t| ==> t[k] == s[i + k];
    assert LStrip(t) == t;
    assert RStrip(t) == t;
    assert Sign(t) == (false, t);
    var n := DigitRun(t);
    if n < |t| {
      var frac := t[n + 1..];
      assert forall k :: 0 <= k < |frac| ==> frac[k] == t[n + 1 + k];
      DigitRunAll(frac);
    }
  }

  /** A '배' directly after a whole number is matched at its first digit. */
  lemma WholeRatioMatched(n: nat)
    ensures FirstRatio(Digits(n) + "배") == Some(n as real)
  {
    var d := Digits(n);
    var s := d + "배";
    assert forall k :: 0 <= k < |d| ==> IsAsciiDigit(d[k]);
    assert s[..|d|] == d;
    assert s[0..] == s;
    DigitRunAll(d);
    assert DigitRun(s) == |d| by { DigitRunPrefix(d, "배"); }
    assert RatioEnd(s, 0) == Some(|d|);
  }

  lemma {:induction false} DigitRunPrefix(d: string, rest: string)
    requires forall k :: 0 <= k < |d| ==> IsAsciiDigit(d[k])
    requires rest == [] || !IsAsciiDigit(rest[0])
    ensures DigitRun(d + rest) == |d|
  {
    if |d| > 0 {
      assert (d + rest)[1..] == d[1..] + rest;
      DigitRunPrefix(d[1..], rest);
    } else {
      assert d + rest == rest;
    }
  }

  predicate IsDigitOrComma(c: char) { IsAsciiDigit(c) || c == ',' }

  /** Length of the leading run of digits and commas. */
  function DigitCommaRun(s: string): (n: nat)
    ensures n <= |s| && forall k :: 0 <= k < n ==> IsDigitOrComma(s[k])
    ensures n == |s| || !IsDigitOrComma(s[n])
  {
    if |s| > 0 && IsDigitOrComma(s[0]) then 1 + DigitCommaRun(s[1..]) else 0
  }

  /** `s[i..e]` is a match of `[\d,]+` and `s[e]` is '원'. */
  predicate AmountMatch(s: string, i: nat, e: nat)
  {
    i < e < |s| && s[e] == '원' && forall k :: i <= k < e ==> IsDigitOrComma(s[k])
  }

  /** End (the index of '원') of the `([\d,]+)원` match starting at `i`: the one there is, and
      none when there is none. */
  function AmountEnd(s: string, i: nat): (e: Option<nat>)
    ensures e.Some? ==> AmountMatch(s, i, e.value)
    ensures forall e': nat :: AmountMatch(s, i, e') ==> e == Some(e')
  {
    if i >= |s| then None
    else
      var n := DigitCommaRun(s[i..]);
      assert forall k :: i <= k < i + n ==> s[k] == s[i..][k - i];
      assert i + n < |s| ==> s[i + n] == s[i..][n];
      if n > 0 && i + n < |s| && s[i + n] == '원' then Some(i + n) else None
  }

  /** A match at `j` ending at `e`, with none starting before `j`. */
  ghost predicate LeftmostAmount(s: string, j: nat, e: nat)
  {
    AmountMatch(s, j, e) && forall j': nat, e': nat :: j' < j ==> !AmountMatch(s, j', e')
  }

  /** There is at most one leftmost match. */
  lemma LeftmostAmountUnique(s: string, j: nat, e: nat)
    requires LeftmostAmount(s, j, e)
    ensures forall j2: nat, e2: nat :: LeftmostAmount(s, j2, e2) ==> j2 == j && e2 == e
  {
    forall j2: nat, e2: nat | LeftmostAmount(s, j2, e2) ensures j2 == j && e2 == e {
      if j2 == j {
        assert AmountEnd(s, j) == Some(e) == Some(e2);
      }
    }
  }

  /** `re.search(r'([\d,]+)원', s)` from position `i` on: the start and the end (the '원') of
      the leftmost match that starts there or later, and none when there is none. */
  function AmountSearch(s: string, i: nat): (m: Option<(nat, nat)>)
    ensures m.Some? ==> i <= m.value.0 && AmountMatch(s, m.value.0, m.value.1)
                        && forall j: nat, e: nat :: i <= j < m.value.0 ==> !AmountMatch(s, j, e)
    ensures m.None? ==> forall j: nat, e: nat :: i <= j ==> !AmountMatch(s, j, e)
    decreases |s| - i
  {
    if i >= |s| then None
    else match AmountEnd(s, i)
      case Some(e) => Some((i, e))
      case None => AmountSearch(s, i + 1)
  }

  /** The group of the first `([\d,]+)원` match read by `int` once its commas are removed (a
      group of commas alone does not parse): the leftmost match's number, and none when nothing
      matches. */
  function FirstAmount(s: string): (r: Option<int>)
    ensures r.Some? ==> r.value >= 0
    ensures (forall j: nat, e: nat :: !AmountMatch(s, j, e)) ==> r.None?
    ensures forall j: nat, e: nat :: LeftmostAmount(s, j, e) ==> r == ParseInt(Replace(s[j..e], ",", ""))
  {
    match AmountSearch(s, 0)
    case None => None
    case Some((j, e)) =>
      CommaFreeAmount(s[j..e]);
      LeftmostAmountUnique(s, j, e);
      ParseInt(Replace(s[j..e], ",", ""))
  }

  /** Digits and commas without the commas read as a non-negative integer, if at all. */
  lemma CommaFreeAmount(t: string)
    requires forall k :: 0 <= k < |t| ==> IsDigitOrComma(t[k])
    ensures ParseInt(Replace(t, ",", "")).Some? ==> ParseInt(Replace(t, ",", "")).value >= 0
  {
    var u := Replace(t, ",", "");
    RemovedCharGone(t, ',');
    RemovedKeepsOthers(t, ',');
    assert forall k :: 0 <= k < |u| ==> IsAsciiDigit(u[k]) by {
      forall k | 0 <= k < |u| ensures IsAsciiDigit(u[k]) {
        var j :| 0 <= j < |t| && t[j] == u[k];
      }
    }
    if |u| == 0 {
      assert Strip(u) == [];
    }
  }

  /** The indicators read from the tables so far. */
  datatype Indicators = Indicators(per: Option<real>, pbr: Option<real>, eps: Option<int>, bps: Option<int>)

  /** What one row does: a row naming PER with '배' sets per and eps from its first matches;
      a row naming PBR with '배' sets pbr and bps; a row without a match keeps the old value. */
  function ReadRow(st: Indicators, row: string): Indicators
  {
    var afterPer :=
      if Contains(row, "PER") && '배' in row then
        Indicators(if FirstRatio(row).Some? then FirstRatio(row) else st.per, st.pbr,
                   if FirstAmount(row).Some? then FirstAmount(row) else st.eps, st.bps)
      else st;
    if Contains(row, "PBR") && '배' in row then
      Indicators(afterPer.per, if FirstRatio(row).Some? then FirstRatio(row) else afterPer.pbr,
                 afterPer.eps, if FirstAmount(row).Some? then FirstAmount(row) else afterPer.bps)
    else afterPer
  }

  function ReadRows(st: Indicators, rows: seq<string>): Indicators
  {
    if |rows| == 0 then st else ReadRow(ReadRows(st, rows[..|rows| - 1]), rows[|rows| - 1])
  }

  /** A table: its whole text and the texts of its rows. */
  datatype Table = Table(text: string, rows: seq<string>)

  /** Only tables whose text mentions both PER and PBR are read. */
  predicate IndicatorTable(t: Table)
  {
    Contains(t.text, "PER") && Contains(t.text, "PBR")
  }

  function ReadTables(st: Indicators, tables: seq<Table>): Indicators
  {
    if |tables| == 0 then st
    else
      var before := ReadTables(st, tables[..|tables| - 1]);
      var t := tables[|tables| - 1];
      if IndicatorTable(t) then ReadRows(before, t.rows) else before
  }

  /** The row loop of `get_valuation_metrics`. */
  method ReadRowsLoop(st: Indicators, rows: seq<string>) returns (r: Indicators)
    ensures r == ReadRows(st, rows)
  {
    r := st;
    for i := 0 to |rows|
      invariant r == ReadRows(st, rows[..i])
    {
      assert rows[..i + 1][..i] == rows[..i];
      var row := rows[i];
      if Contains(row, "PER") && '배' in row {
        var perMatch := FirstRatio(row);
        if perMatch.Some? {
          r := r.(per := perMatch);
        }
        var epsMatch := FirstAmount(row);
        if epsMatch.Some? {
          r := r.(eps := epsMatch);
        }
      }
      if Contains(row, "PBR") && '배' in row {
        var pbrMatch := FirstRatio(row);
        if pbrMatch.Some? {
          r := r.(pbr := pbrMatch);
        }
        var bpsMatch := FirstAmount(row);
        if bpsMatch.Some? {
          r := r.(bps := bpsMatch);
        }
      }
    }
    assert rows[..|rows|] == rows;
  }

  /** The table loop of `get_valuation_metrics`. */
  method ReadTablesLoop(tables: seq<Table>) returns (r: Indicators)
    ensures r == ReadTables(Indicators(None, None, None, None), tables)
  {
    r := Indicators(None, None, None, None);
    for i := 0 to |tables|
      invariant r == ReadTables(Indicators(None, None, None, None), tables[..i])
    {
      assert tables[..i + 1][..i] == tables[..i];
      if IndicatorTable(tables[i]) {
        r := ReadRowsLoop(r, tables[i].rows);
      }
    }
    assert tables[..|tables|] == tables;
  }

  predicate NonNegative(st: Indicators)
  {
    (st.per.Some? ==> st.per.value >= 0.0) && (st.pbr.Some? ==> st.pbr.value >= 0.0)
    && (st.eps.Some? ==> st.eps.value >= 0) && (st.bps.Some? ==> st.bps.value >= 0)
  }

  /** The patterns carry no sign, so every indicator read from the page is non-negative. */
  lemma {:induction false} ReadTablesNonNegative(tables: seq<Table>)
    ensures NonNegative(ReadTables(Indicators(None, None, None, None), tables))
  {
    if |tables| > 0 {
      ReadTablesNonNegative(tables[..|tables| - 1]);
      var t := tables[|tables| - 1];
      if IndicatorTable(t) {
        ReadRowsNonNegative(ReadTables(Indicators(None, None, None, None), tables[..|tables| - 1]), t.rows);
      }
    }
  }

  lemma {:induction false} ReadRowsNonNegative(st: Indicators, rows: seq<string>)
    requires NonNegative(st)
    ensures NonNegative(ReadRows(st, rows))
  {
    if |rows| > 0 {
      ReadRowsNonNegative(st, rows[..|rows| - 1]);
      ReadRowNonNegative(ReadRows(st, rows[..|rows| - 1]), rows[|rows| - 1]);
    }
  }

  lemma ReadRowNonNegative(st: Indicators, row: string)
    requires NonNegative(st)
    ensures NonNegative(ReadRow(st, row))
  {
  }

  /** Rows that name neither indicator leave every value as it was. */
  lemma {:induction false} UnrelatedRowsIgnored(st: Indicators, rows: seq<string>)
    requires forall k :: 0 <= k < |rows| ==> '배' !in rows[k]
    ensures ReadRows(st, rows) == st
  {
    if |rows| > 0 {
      UnrelatedRowsIgnored(st, rows[..|rows| - 1]);
    }
  }

  // ------------------------------------------------------------ the result

  /** What the parsed page offers: the company title, the price text, the market-cap text
      and the tables. */
  datatype Page = Page(title: Option<string>, priceText: Option<string>, marketSumText: Option<string>,
                       tables: seq<Table>)

  datatype Valuation = Valuation(name: Option<string>, currentPrice: Option<int>, marketCapText: Option<string>,
                                 marketCap: Option<real>, per: Option<real>, pbr: Option<real>,
                                 eps: Option<int>, bps: Option<int>)

  /** `get_valuation_metrics`: None when the page could not be fetched, or when none of per,
      pbr and eps was found. */
  method GetValuationMetrics(page: Option<Page>) returns (r: Option<Valuation>)
    ensures page.None? ==> r.None?
    ensures page.Some? ==>
              var ind := ReadTables(Indicators(None, None, None, None), page.value.tables);
              (r.Some? <==> ind.per.Some? || ind.pbr.Some? || ind.eps.Some?)
              && (r.Some? ==> r.value.per == ind.per && r.value.pbr == ind.pbr
                              && r.value.eps == ind.eps && r.value.bps == ind.bps
                              && r.value.marketCap == (if page.value.marketSumText.Some?
                                                       then MarketCap(page.value.marketSumText.value) else None))
  {
    if page.None? {
      return None;
    }
    var p := page.value;
    var name := if p.title.Some? then Some(Strip(p.title.value)) else None;
    var price := if p.priceText.Some? then ParseInt(Replace(p.priceText.value, ",", "")) else None;
    var capText := if p.marketSumText.Some? then Some(Strip(p.marketSumText.value)) else None;
    var cap := if p.marketSumText.Some? then MarketCap(p.marketSumText.value) else None;
    var ind := ReadTablesLoop(p.tables);
    if ind.per.Some? || ind.pbr.Some? || ind.eps.Some? {
      r := Some(Valuation(name, price, capText, cap, ind.per, ind.pbr, ind.eps, ind.bps));
    } else {
      r := None;
    }
  }
}
